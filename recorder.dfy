/** audio/recorder.py: `AudioRecorder` collects the chunks delivered by the
    input stream's callback between `start` and `stop`, and `stop` writes
    their concatenation to a WAV file and returns its name, or returns None
    when nothing was captured. The `sounddevice` stream and the file written
    by `scipy.io.wavfile` are abstract fields. */
module Recorder {
  import opened Wrappers

  /** FS: the sample rate. */
  const DefaultRate: nat := 44100
  /** FILENAME: where the recording is written. */
  const DefaultFilename: string := "recorded.wav"

  /** One mono 16-bit sample (`channels=1, dtype="int16"`). */
  type Sample = x: int | -32768 <= x < 32768

  /** The frames of one callback's `indata`. */
  type Chunk = seq<Sample>

  /** `self.stream`: None, or an input stream created at a sample rate,
      which `active` says was started. */
  datatype Stream = NoStream | Opened(rate: nat, active: bool)

  /** How `start` went on the device: `sd.InputStream(...)` raised, or it
      returned a stream whose `start()` raised, or both succeeded. */
  datatype StartOutcome = ConstructFailed | StartFailed | Started

  /** How `stop` ended: it returned the file name or None, or `wav.write`
      raised and the exception propagated. */
  datatype StopResult = Returned(path: Option<string>) | WriteRaised

  /** A WAV file as `wav.write(path, rate, audio)` leaves it. */
  datatype WavFile = WavFile(path: string, rate: nat, samples: seq<Sample>)

  /** The number of frames in all chunks together. */
  function TotalFrames(chunks: seq<Chunk>): nat
  {
    if chunks == [] then 0 else TotalFrames(chunks[..|chunks| - 1]) + |chunks[|chunks| - 1]|
  }

  /** `np.concatenate(chunks, axis=0)`: the chunks' frames, in order; the
      written audio is as long as all chunks together. */
  function Concat(chunks: seq<Chunk>): (r: seq<Sample>)
    ensures |r| == TotalFrames(chunks)
  {
    if chunks == [] then [] else Concat(chunks[..|chunks| - 1]) + chunks[|chunks| - 1]
  }

  /** Appending a chunk appends its frames to the concatenation. */
  lemma ConcatAppend(chunks: seq<Chunk>, c: Chunk)
    ensures Concat(chunks + [c]) == Concat(chunks) + c
    ensures TotalFrames(chunks + [c]) == TotalFrames(chunks) + |c|
  {
    assert (chunks + [c])[..|chunks|] == chunks;
  }

  /** Chunk k occupies the frames after those of chunks 0..k-1: the
      concatenation keeps every chunk whole and in arrival order. */
  lemma {:induction false} ConcatChunkAt(chunks: seq<Chunk>, k: nat, j: nat)
    requires k < |chunks| && j < |chunks[k]|
    ensures TotalFrames(chunks[..k]) + j < |Concat(chunks)|
    ensures Concat(chunks)[TotalFrames(chunks[..k]) + j] == chunks[k][j]
    decreases |chunks|
  {
    var n := |chunks| - 1;
    var init := chunks[..n];
    if k == n {
      assert chunks[..k] == init;
    } else {
      assert init[..k] == chunks[..k];
      ConcatChunkAt(init, k, j);
    }
  }

  class AudioRecorder {
    const filename: string
    const fs: nat
    /** `self.recording`: the chunks captured since the last `start`. */
    var recording: seq<Chunk>
    var stream: Stream
    /** The WAV file most recently written by `stop`, if any. */
    var written: Option<WavFile>

    constructor (filename: string, fs: nat)
      ensures this.filename == filename && this.fs == fs
      ensures recording == [] && stream == NoStream && written == None
    {
      this.filename := filename;
      this.fs := fs;
      recording := [];
      stream := NoStream;
      written := None;
    }

    /** `start()`: clear the buffer, create the input stream at `fs` and
        start it. When creating the stream raises, the buffer is already
        cleared and `self.stream` keeps its old value; when starting it
        raises, `self.stream` already holds the new, inactive stream, which
        a later `stop` closes. */
    method Start(outcome: StartOutcome)
      modifies this`recording, this`stream
      ensures recording == []
      ensures outcome == ConstructFailed ==> stream == old(stream)
      ensures outcome == StartFailed ==> stream == Opened(fs, false)
      ensures outcome == Started ==> stream == Opened(fs, true)
    {
      recording := [];
      if outcome == ConstructFailed {
        return;
      }
      stream := Opened(fs, false);
      if outcome == StartFailed {
        return;
      }
      stream := stream.(active := true);
    }

    /** `_callback(indata, ...)`: append a copy of one chunk. */
    method Callback(indata: Chunk)
      modifies this`recording
      ensures recording == old(recording) + [indata]
      ensures Concat(recording) == Concat(old(recording)) + indata
      ensures TotalFrames(recording) == TotalFrames(old(recording)) + |indata|
    {
      ConcatAppend(recording, indata);
      recording := recording + [indata];
    }

    /** `stop()`: close the stream if there is one; then, if any chunk was
        captured, write their concatenation to `filename` and return the
        name, otherwise return None. `writeSucceeds` says whether
        `wav.write` succeeded; when it raises, `stop` raises too, after the
        stream was already closed. The buffer is left as it is. */
    method Stop(writeSucceeds: bool) returns (result: StopResult)
      modifies this`stream, this`written
      ensures stream == NoStream
      ensures recording == [] ==> result == Returned(None) && written == old(written)
      ensures recording != [] && writeSucceeds ==>
                result == Returned(Some(filename)) && written == Some(WavFile(filename, fs, Concat(recording)))
      ensures recording != [] && !writeSucceeds ==> result == WriteRaised && written == old(written)
    {
      if stream != NoStream {
        stream := NoStream;
      }
      if recording != [] {
        if !writeSucceeds {
          return WriteRaised;
        }
        written := Some(WavFile(filename, fs, Concat(recording)));
        return Returned(Some(filename));
      }
      return Returned(None);
    }
  }

  /** Two one-second chunks at 44.1 kHz become one file of 88200 frames;
      `stop` without a new `start` returns the name again; a recorder that
      never started, or captured nothing, returns None; a stream whose start
      failed is still closed by `stop`; and a failed write leaves the stream
      closed, the buffer kept, and the next `stop` can still save it. */
  method RecorderScenario(first: Chunk, second: Chunk)
    requires |first| == DefaultRate && |second| == DefaultRate
  {
    var idle := new AudioRecorder(DefaultFilename, DefaultRate);
    var none := idle.Stop(true);
    assert none == Returned(None);

    var r := new AudioRecorder(DefaultFilename, DefaultRate);
    r.Start(Started);
    r.Callback(first);
    r.Callback(second);
    var saved := r.Stop(true);
    assert saved == Returned(Some(DefaultFilename)) && r.stream == NoStream;
    assert r.recording == [first, second];
    assert TotalFrames(r.recording) == 88200 by {
      assert r.recording[..1] == [first];
      assert [first][..0] == [];
    }
    assert r.written.value.samples == Concat(r.recording);
    assert |r.written.value.samples| == 88200;
    saved := r.Stop(true);
    assert saved == Returned(Some(DefaultFilename));

    r.Start(Started);
    saved := r.Stop(true);
    assert saved == Returned(None);

    var f := new AudioRecorder(DefaultFilename, DefaultRate);
    f.Start(StartFailed);
    assert f.stream == Opened(DefaultRate, false);
    saved := f.Stop(true);
    assert saved == Returned(None) && f.stream == NoStream;

    var w := new AudioRecorder(DefaultFilename, DefaultRate);
    w.Start(Started);
    w.Callback(first);
    saved := w.Stop(false);
    assert saved == WriteRaised && w.stream == NoStream && w.written == None;
    assert w.recording == [first];
    saved := w.Stop(true);
    assert saved == Returned(Some(DefaultFilename));
  }
}

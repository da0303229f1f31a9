# AuraSpeak core, modelled in Dafny

AuraSpeak is a push-to-talk voice agent. A global hotkey starts and stops a
microphone recording, the recording is transcribed, and the transcript is
classified as a web search, text to read aloud, or text to copy to the
clipboard. Most of the repository wraps external services. This project
models the parts with their own sequential logic and proves what they
promise:

- `combo_hotkey.dfy` (module `ComboHotkey`): the key-combination edge detector of `main.py`.
  - It keeps `pressed_keys` and the engaged flag stored as `on_press.pressed`.
  - It fires one `on_start` per hold of right shift + right alt and one `on_stop` when a release breaks the combination.
  - The model has pure step functions, a `Run` over event sequences, and a `ComboListener` class whose handlers are proved against those functions.
- `single_key_hotkey.dfy` (module `SingleKeyHotkey`): `HotkeyListener` with its `_pressed` flag.
  - It is proved to behave exactly as the combination detector with a one-key combination.
- `intent.dfy` (module `IntentDetection`): `detect_intent`, the ordered prefix and substring tests on the lower-cased transcript.
- `web_scraper.dfy` (module `WebScraper`): the `scrape_urls` loop.
  - The loop stores each URL's extracted text or None.
  - It truncates so that the combined stored length stays within `max_length`.
  - It stops as soon as the budget is met.
  - The loop is a method proved against a recursive list of the assignments it makes (`Entries`).
- `recorder.dfy` (module `Recorder`): the `AudioRecorder` chunk buffer.
  - `start` clears it, `_callback` appends to it, and `stop` writes the in-order concatenation.
- `benchmark.dfy` (module `Benchmark`): the `benchmark_data` table.
  - It is filled by the `benchmark_function` decorator and the `benchmark_block` context manager, and emptied by `clear_benchmark_data`.
- `keys.dfy`, `strings.dfy` and `wrappers.dfy`: the shared key, event and edge types, the prefix test, and `Option`.

How the external parts are represented:
- Fetching a page and extracting its text (`requests.get`, `trafilatura.extract`) is an input sequence `responses`, aligned with `urls`. The i-th response is what handling the i-th URL produced.
- How the audio device behaves in `Start` is a parameter: creating the stream raised, starting it raised, or both succeeded.
- Whether `wav.write` succeeds in `Stop` is a parameter. When it raises, `stop` raises too.
- Clock readings are parameters of the benchmark methods.
- The timed code is represented by its outcome: a returned value or a raised error.
- The sound device stream and the WAV file written are plain fields (`stream`, `written`).
- `max_length` is a `nat`. Python's `text[:negative]` would slice from the end, and the model does not cover that.

## Model

| member | source | states |
|---|---|---|
| ComboHotkey.PressStep | main.py:139-143 | every press adds the key to the held set; on_start fires only from the disengaged state and sets the flag; while engaged (auto-repeat included) nothing fires; the flag-iff-combination-held invariant is kept; on_start fires exactly on the rising edge of "RECORD_KEYS held" |
| ComboHotkey.ReleaseStep | main.py:145-150 | a release of a key not held leaves the set unchanged; the key is gone afterwards; on_stop fires only when engaged and clears the flag; releasing a non-combination key while the combination is held fires nothing; the invariant is kept; on_stop fires exactly on the falling edge |
| ComboHotkey.Run | main.py:139-150 | handling a sequence of events one after another fires no more callbacks than there are events, and the flag changes only when a callback fires |
| ComboHotkey.RunAlternates | main.py:139-150 | over any event sequence the invariant is kept, the fired callbacks extend a strictly alternating Start/Stop log, and the flag is set exactly when that log ends with Start |
| ComboHotkey.RunFromInitial | main.py:18 | from start-up (empty `pressed_keys`, no flag) the callbacks alternate beginning with on_start, and the flag is set exactly while RECORD_KEYS are all held |
| ComboHotkey.ComboListener.constructor | main.py:62 | `pressed_keys` starts empty, the flag unset, no callback fired |
| ComboHotkey.ComboListener.OnPress | main.py:139-143 | the handler updates the held set and flag as PressStep says, appends the callback it fired to the log, and keeps the invariant and the alternation |
| ComboHotkey.ComboListener.OnRelease | main.py:145-150 | the handler updates the held set and flag as ReleaseStep says, appends the callback it fired to the log, and keeps the invariant and the alternation |
| SingleKeyHotkey.PressStep | ui/hotkey_listener.py:14-17 | other keys change nothing and call nothing; a press while already pressed changes nothing; a first press of the record key sets `_pressed` and calls on_start once |
| SingleKeyHotkey.ReleaseStep | ui/hotkey_listener.py:19-22 | other keys change nothing; a release while not pressed is a no-op; a release of the pressed record key clears `_pressed` and calls on_stop once |
| SingleKeyHotkey.Run | ui/hotkey_listener.py:14-22 | over a sequence of events no more callbacks fire than there are events, `_pressed` changes only when a callback fires, and events of other keys never change `_pressed` or call anything |
| SingleKeyHotkey.RunIsComboOfOne | ui/hotkey_listener.py:14-22 | on every event sequence the single-key listener fires the same callbacks as the combination detector for {record_key}, with the same flag |
| SingleKeyHotkey.RunFromConstruction | ui/hotkey_listener.py:12-22 | from `_pressed = False`, on_start and on_stop strictly alternate beginning with on_start, and `_pressed` is set exactly when the last call was on_start |
| SingleKeyHotkey.HotkeyListener.constructor | ui/hotkey_listener.py:7-12 | the record key is stored and `_pressed` starts false |
| SingleKeyHotkey.HotkeyListener.OnPress | ui/hotkey_listener.py:14-17 | `_on_press` changes `_pressed` and the callback log as PressStep says and keeps the alternation |
| SingleKeyHotkey.HotkeyListener.OnRelease | ui/hotkey_listener.py:19-22 | `_on_release` changes `_pressed` and the callback log as ReleaseStep says and keeps the alternation |
| IntentDetection.LowerChar | tools/intent.py:6 | a lowered character is never upper case; upper-case letters move down by 32 code points; other characters are kept |
| IntentDetection.Lower | tools/intent.py:6 | `lower()` keeps the length and lowers every character in place |
| IntentDetection.DetectIntent | tools/intent.py:1-11 | web_search exactly when a search trigger matches the lowered text, so search triggers win over speech triggers; tts exactly when no search trigger matches and a speech trigger does; clipboard exactly when neither kind matches |
| IntentDetection.LowerIdempotent | tools/intent.py:6 | lower-casing twice is lower-casing once |
| IntentDetection.DetectIntentIgnoresCase | tools/intent.py:6-11 | texts with the same lower-cased form, and a text and its lower-cased form, get the same intent |
| IntentDetection.SearchTheWebAboutSubsumed | tools/intent.py:7 | starting with "search the web about" implies containing "search the web" |
| IntentDetection.WebSearchIff | tools/intent.py:7-8 | web_search exactly when the lowered text starts with "search for" or contains "search the web" |
| IntentDetection.ContainsNeedsRoom | tools/intent.py:7 | a substring test succeeds only when the pattern fits in the text |
| IntentDetection.SpeakUpIsTts | tools/intent.py:9-10 | "Speak up" is classified tts |
| WebScraper.Fetched | tools/web_scraper.py:14-18 | a response yields text exactly for status 200 with a present, non-empty extraction |
| WebScraper.Kept | tools/web_scraper.py:19-21 | the kept text is a prefix of the extracted text, fits the remaining budget, and is cut short only when it meets the budget exactly |
| WebScraper.Store | tools/web_scraper.py:14-32 | the stored value is None exactly when the fetch failed; otherwise it is a prefix of the extracted text within the remaining budget |
| WebScraper.Entries | tools/web_scraper.py:13-25 | the loop makes at most one assignment per URL, and at least one when there is a URL |
| WebScraper.ToMap | tools/web_scraper.py:11-32 | the result dictionary has at most one key per assignment |
| WebScraper.EntryAt | tools/web_scraper.py:13-25 | the k-th assignment is for the k-th URL, stores what Store gives for the k-th response with the budget used by the earlier entries, and, unless it is the last, did not meet the budget |
| WebScraper.EntriesWithinBudget | tools/web_scraper.py:19-25 | the combined length of the stored texts never exceeds `max_length` |
| WebScraper.EntriesEarlyExit | tools/web_scraper.py:24-25 | the loop ends before the last URL only after storing a text that brings the total exactly to `max_length` |
| WebScraper.TruncatedIsLast | tools/web_scraper.py:20-25 | only the entry that meets the budget can be truncated; it is the last one and the budget is then used exactly |
| WebScraper.ToMapHasKey | tools/web_scraper.py:22-32 | every assigned URL is a key of the result |
| WebScraper.ToMapKeys | tools/web_scraper.py:11-33 | every key of the result was assigned by the loop |
| WebScraper.ToMapLast | tools/web_scraper.py:22-32 | a URL maps to the text of its last assignment |
| WebScraper.ScrapeUrlsKeys | tools/web_scraper.py:11-33 | every key is an input URL handled before the loop stopped, every URL handled has a key, the stored texts fit the budget, and stopping early means the budget is used up |
| WebScraper.HandleResponse | tools/web_scraper.py:14-32 | one iteration's `try` body stores what Store gives and advances `total_length` by the stored length, staying within `max_length` |
| WebScraper.ScrapeUrls | tools/web_scraper.py:5-33 | the loop returns exactly the dictionary built by the assignments Entries lists, and every key is an input URL |
| Recorder.Concat | audio/recorder.py:31 | the concatenation has as many frames as all chunks together |
| Recorder.ConcatChunkAt | audio/recorder.py:30-32 | each chunk appears whole and in arrival order in the written audio, right after the frames of the chunks before it |
| Recorder.AudioRecorder.constructor | audio/recorder.py:12-16 | filename and rate are stored, the buffer is empty and there is no stream |
| Recorder.AudioRecorder.Start | audio/recorder.py:18-22 | the buffer is cleared; when creating the stream raises, `self.stream` keeps its old value; when starting it raises, `self.stream` holds the new inactive stream at `fs`; otherwise it holds the started stream at `fs` |
| Recorder.AudioRecorder.Callback | audio/recorder.py:36-48 | exactly one chunk is appended at the end and earlier chunks are unchanged; the concatenation and frame count grow by that chunk |
| Recorder.AudioRecorder.Stop | audio/recorder.py:24-34 | the stream is None afterwards on every path; an empty buffer returns None and writes nothing; a non-empty buffer writes its concatenation at `fs` to `filename` and returns the name, or, when `wav.write` raises, `stop` raises and no file is recorded as written; the buffer is kept, so a second stop returns the name again |
| Benchmark.Recorded | utils/benchmark.py:22-24 | recording under a name creates its list if absent and appends exactly one duration; every other name's list is unchanged |
| Benchmark.RecordedName | utils/benchmark.py:16 | the name is `func_name` when it is given and non-empty, else the function's own name |
| Benchmark.RecordedCommutes | utils/benchmark.py:44-46 | recordings under different names can happen in either order with the same table |
| Benchmark.RecordAllHistory | utils/benchmark.py:44-46 | a series of recordings under one name appends the durations in order and adds only that name |
| Benchmark.BenchmarkTable.constructor | utils/benchmark.py:6 | the table starts empty |
| Benchmark.BenchmarkTable.Record | utils/benchmark.py:44-46 | the shared bookkeeping step changes the table as Recorded says |
| Benchmark.BenchmarkTable.BenchmarkFunction | utils/benchmark.py:13-27 | the wrapped function's outcome is returned unchanged; a duration is recorded under the resolved name only when the function returned |
| Benchmark.BenchmarkTable.BenchmarkBlock | utils/benchmark.py:31-46 | the block's outcome propagates, and a duration is recorded even when the block raised |
| Benchmark.BenchmarkTable.Clear | utils/benchmark.py:78-83 | the table is empty afterwards |

## Left out

- Threads, locks and signals in main.py are not modelled: `processing_lock`, `processing_thread`, `interrupt_event` and `graceful_exit`. The key handlers are modelled as running one after another, as they do on the listener thread.
- `process_audio`, `on_start` and `on_stop` of main.py are not modelled beyond the fact that a callback was fired. They dispatch to transcription, text-to-speech, web search and the clipboard, which are wrappers over external services.
- The wiring in main.py does not match the other files, so each core file is modelled as written:
  - main.py:152 calls `HotkeyListener(on_press, on_release)`, but the constructor takes `(record_key, on_start, on_stop)`.
  - main.py:92-95 expects a dictionary from `detect_intent`, which returns a string.
- `save_benchmarks_to_file` and `print_benchmark_summary` are not modelled. They are file and console output with float averages and formatting.
- The `print` calls in the benchmark wrappers, in the scraper's exception handler and in the recorder callback's status report are not modelled.
- `pynput`, `sounddevice`, `numpy`, `scipy.io.wavfile`, `requests` and `trafilatura` are not modelled. They appear only as inputs and fields.
- Durations are unbounded reals. Float rounding of `time.time()` differences is not modelled.
- IntentDetection.Lower: covers ASCII letters only. Python's `str.lower()` also lower-cases other Unicode letters.
- WebScraper.ScrapeUrlsKeys: states the budget over the sequence of texts the loop stored. When a URL repeats, the final dictionary keeps only its last text, so its total is at most that sum. The order of the dictionary's keys is not modelled.
- WebScraper.ScrapeUrls: `max_length` is a natural number. A negative value would make Python slice from the end of the text.
- Recorder.AudioRecorder.Stop: a `wav.write` that raises partway may leave a partial file on disk. The model records no file in that case.
- Recorder.AudioRecorder.Start: a stream that is already open when `start` is called again is replaced without being stopped or closed. The model keeps only the latest stream, so it does not show the old stream left running.
- The audio samples are 16-bit integers. The channel layout of `indata`, a frames-by-1 array, is flattened to a sequence of samples.

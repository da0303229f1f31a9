/** utils/benchmark.py: the module-level `benchmark_data` dictionary maps a
    name to the list of durations recorded under it. The decorator made by
    `benchmark_function` and the context manager `benchmark_block` each
    append one duration per timed run; `clear_benchmark_data` empties it.
    Clock readings (`time.time()`) are parameters, durations are opaque
    values, and the timed code is represented by its outcome. */
module Benchmark {
  import opened Wrappers

  /** `end_time - start_time`, in seconds. */
  type Duration = real

  type Table = map<string, seq<Duration>>

  /** How the timed code finished: with a result, or by raising. */
  datatype Outcome<T> = Returned(value: T) | Raised(error: string)

  /** The list recorded under `name` so far (empty if none). */
  function History(table: Table, name: string): seq<Duration>
  {
    if name in table then table[name] else []
  }

  /** The table after one run timed under `name` took `d`: the name's list
      is created if absent and gets `d` at its end; every other name keeps
      its list. */
  function Recorded(table: Table, name: string, d: Duration): (r: Table)
    ensures r.Keys == table.Keys + {name}
    ensures r[name] == History(table, name) + [d]
    ensures forall n :: n in table && n != name ==> r[n] == table[n]
  {
    table[name := History(table, name) + [d]]
  }

  /** `func_name or func.__name__`: an absent or empty given name falls back
      to the function's own name. */
  function RecordedName(funcName: Option<string>, ownName: string): (name: string)
    ensures funcName.Some? && funcName.value != "" ==> name == funcName.value
    ensures funcName.None? || funcName.value == "" ==> name == ownName
    ensures name == "" ==> ownName == ""
  {
    if funcName.Some? && funcName.value != "" then funcName.value else ownName
  }

  /** Runs timed under different names can be recorded in either order:
      each run only touches its own name's list. */
  lemma RecordedCommutes(table: Table, a: string, da: Duration, b: string, db: Duration)
    requires a != b
    ensures Recorded(Recorded(table, a, da), b, db) == Recorded(Recorded(table, b, db), a, da)
  {
    var left := Recorded(Recorded(table, a, da), b, db);
    var right := Recorded(Recorded(table, b, db), a, da);
    assert left.Keys == right.Keys;
    forall n | n in left ensures left[n] == right[n] {
      if n != a && n != b {
        assert n in table;
      }
    }
  }

  /** The table after a series of runs timed under one name. */
  function RecordAll(table: Table, name: string, ds: seq<Duration>): Table
    decreases |ds|
  {
    if ds == [] then table else RecordAll(Recorded(table, name, ds[0]), name, ds[1..])
  }

  /** A series of runs under one name adds exactly that name (if any run
      happened) and appends the durations, in order, to its list. */
  lemma {:induction false} RecordAllHistory(table: Table, name: string, ds: seq<Duration>)
    ensures RecordAll(table, name, ds).Keys == table.Keys + (if ds == [] then {} else {name})
    ensures History(RecordAll(table, name, ds), name) == History(table, name) + ds
    decreases |ds|
  {
    if ds != [] {
      var t := Recorded(table, name, ds[0]);
      RecordAllHistory(t, name, ds[1..]);
      assert History(table, name) + [ds[0]] + ds[1..] == History(table, name) + ds;
    }
  }

  /** The global `benchmark_data`. */
  class BenchmarkTable {
    var data: Table

    constructor ()
      ensures data == map[]
    {
      data := map[];
    }

    /** The bookkeeping shared by both timers: create the list if absent,
        then append the duration. */
    method Record(name: string, d: Duration)
      modifies this
      ensures data == Recorded(old(data), name, d)
    {
      if name !in data {
        data := data[name := []];
      }
      data := data[name := data[name] + [d]];
    }

    /** A call of a function wrapped by `@benchmark_function(func_name)`:
        the result is passed through unchanged; a duration is recorded only
        when the function returned, since an exception skips the rest of
        the wrapper. */
    method BenchmarkFunction<T>(funcName: Option<string>, ownName: string,
                                startTime: real, outcome: Outcome<T>, endTime: real)
      returns (result: Outcome<T>)
      modifies this
      ensures result == outcome
      ensures outcome.Raised? ==> data == old(data)
      ensures outcome.Returned? ==>
                data == Recorded(old(data), RecordedName(funcName, ownName), endTime - startTime)
    {
      var name := RecordedName(funcName, ownName);
      if outcome.Raised? {
        return outcome;
      }
      var duration := endTime - startTime;
      Record(name, duration);
      result := outcome;
    }

    /** `with benchmark_block(block_name): ...`: the `finally` clause records
        the duration whether the body finished or raised, and the body's
        exception, if any, propagates. */
    method BenchmarkBlock<T>(blockName: string, startTime: real, body: Outcome<T>, endTime: real)
      returns (result: Outcome<T>)
      modifies this
      ensures result == body
      ensures data == Recorded(old(data), blockName, endTime - startTime)
    {
      var duration := endTime - startTime;
      Record(blockName, duration);
      result := body;
    }

    /** `clear_benchmark_data()`. */
    method Clear()
      modifies this
      ensures data == map[]
    {
      data := map[];
    }
  }
}

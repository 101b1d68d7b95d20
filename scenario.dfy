/**
 * The writing half of `testBytes` in JEMongoStoreTest: construct a
 * directory, begin a transaction, create and close one output per file
 * name, commit, and close the directory.  Against an engine that never
 * fails, the whole run is determined: the caller's transaction is
 * committed by the first output close, every later `createOutput` begins a
 * fresh transaction that its close commits, the final
 * `commitTransaction()` has nothing left to commit, and `close()` has
 * nothing to abort.
 */
module Scenario {
  import opened Engine
  import opened TxnLog
  import opened DirectorySpec

  /**
   * The test's loop: for each name, `createOutput` then `close`; the byte
   * writes between them are not modelled.  It stops at the first
   * exception.
   */
  function WriteFiles(w: World, names: seq<string>): Step
    decreases |names|
  {
    if names == [] then Step(w, Ok)
    else
      var c := CreateOutput(w, names[0]);
      if c.out.Failure? then Step(c.w, Fail(c.out.error))
      else
        var k := CloseOutput(c.w, c.out.value);
        if k.out.Fail? then k else WriteFiles(k.w, names[1..])
  }

  /**
   * The test's `try { construct; beginTransaction; loop; commitTransaction }
   * catch (IOException) { abortTransaction } finally { close }`.  When the
   * constructor throws, the test has no directory to close; that run is
   * cut short here.
   */
  function TestBytesWrite(env: EnvState, names: seq<string>): Step
  {
    var c := Construct(env);
    if c.out.Fail? then c
    else
      var b := BeginTxn(c.w);
      var t :=
        if b.out.Fail? then b
        else
          var wr := WriteFiles(b.w, names);
          if wr.out.Fail? then wr else CommitTxn(wr.w);
      var caught := if t.out.Fail? then AbortTxn(t.w) else t;
      var closed := Close(caught.w);
      if closed.out.Fail? then closed else Step(closed.w, caught.out)
  }

  /** The calls of one output's create and close under transaction `t`. */
  function Round(t: TxnId, name: string): seq<Event>
  {
    [Did(OpenOutput(name), Some(t), true), Did(FinishOutput(name), Some(t), true), Committed(t, true)]
  }

  /** Rounds that each begin their own transaction, numbered from `t`. */
  function AutoRounds(t: TxnId, names: seq<string>): seq<Event>
    decreases |names|
  {
    if names == [] then [] else [Began(t)] + Round(t, names[0]) + AutoRounds(t + 1, names[1..])
  }

  /** What follows the caller's `beginTransaction()` of transaction `t`, up to `close()`. */
  function CallerPart(t: TxnId, names: seq<string>): seq<Event>
  {
    if names == [] then [Committed(t, true)] else Round(t, names[0]) + AutoRounds(t + 1, names[1..])
  }

  /**
   * One `createOutput` and `close` against a fault-free engine with no
   * transaction active: a fresh transaction is begun and then committed.
   */
  lemma RoundFaultFree(w: World, name: string)
    requires w.env.faults == [] && w.dir.txn.None?
    ensures var t := w.env.nextId;
            var c := CreateOutput(w, name);
              c == OutputStep(World(w.dir.(txn := Some(t)), EnvState(t + 1, []),
                                    w.log + [Began(t), Did(OpenOutput(name), Some(t), true)]),
                              Success(Output(name, true))) &&
              CloseOutput(c.w, c.out.value) == Step(World(w.dir, EnvState(t + 1, []), w.log + [Began(t)] + Round(t, name)), Ok)
  {
    var t := w.env.nextId;
    var b := BeginTxn(w);
    assert b == Step(World(w.dir.(txn := Some(t)), EnvState(t + 1, []), w.log + [Began(t)]), Ok);
  }

  /**
   * Against a fault-free engine and with no transaction active, each
   * `createOutput` begins a fresh transaction and the matching `close`
   * commits it.
   */
  lemma {:induction false} WriteFilesFaultFree(w: World, names: seq<string>)
    requires w.env.faults == [] && w.dir.txn.None?
    ensures WriteFiles(w, names) ==
            Step(World(w.dir, EnvState(w.env.nextId + |names|, []), w.log + AutoRounds(w.env.nextId, names)), Ok)
    decreases |names|
  {
    if names != [] {
      var t := w.env.nextId;
      RoundFaultFree(w, names[0]);
      var k := World(w.dir, EnvState(t + 1, []), w.log + [Began(t)] + Round(t, names[0]));
      WriteFilesStep(w, names, k);
      WriteFilesFaultFree(k, names[1..]);
      AutoRoundsSplit(w.log, t, names);
    }
  }

  lemma AutoRoundsSplit(log: seq<Event>, t: TxnId, names: seq<string>)
    requires names != []
    ensures log + [Began(t)] + Round(t, names[0]) + AutoRounds(t + 1, names[1..]) == log + AutoRounds(t, names)
  {
  }

  /** A run of rounds contains no abort. */
  lemma {:induction false} AutoRoundsNoAbort(t: TxnId, names: seq<string>)
    ensures forall e :: e in AutoRounds(t, names) ==> !e.Aborted?
    decreases |names|
  {
    if names != [] {
      AutoRoundsNoAbort(t + 1, names[1..]);
    }
  }

  /** The caller's part of the run contains no abort. */
  lemma CallerPartNoAbort(t: TxnId, names: seq<string>)
    ensures forall e :: e in CallerPart(t, names) ==> !e.Aborted?
  {
    if names != [] {
      AutoRoundsNoAbort(t + 1, names[1..]);
      forall e | e in CallerPart(t, names)
        ensures !e.Aborted?
      {
        assert e in Round(t, names[0]) || e in AutoRounds(t + 1, names[1..]);
      }
    }
  }

  /** The constructor against a fault-free engine opens both stores in transaction `n` and commits it. */
  lemma ConstructFaultFree(n: TxnId)
    ensures Construct(EnvState(n, [])) ==
            Step(World(Dir(None, Open, Open), EnvState(n + 1, []),
                       [Began(n), Did(OpenDb(Index), Some(n), true), Did(OpenDb(Blocks), Some(n), true), Committed(n, true)]),
                 Ok)
  {
  }

  /**
   * One `createOutput` and `close` against a fault-free engine while the
   * caller's transaction `t` is active: the output joins it, and its close
   * commits it.
   */
  lemma CallerRoundFaultFree(w: World, t: TxnId, name: string)
    requires w.env.faults == [] && w.dir.txn == Some(t)
    ensures var c := CreateOutput(w, name);
              c == OutputStep(w.(log := w.log + [Did(OpenOutput(name), Some(t), true)]), Success(Output(name, true))) &&
              CloseOutput(c.w, c.out.value) == Step(World(w.dir.(txn := None), w.env, w.log + Round(t, name)), Ok)
  {
  }

  /**
   * The test's loop against a fault-free engine, started under the caller's
   * transaction `t`: the first output joins and commits it, and every later
   * file runs in a transaction of its own.
   */
  lemma CallerFilesFaultFree(w: World, t: TxnId, names: seq<string>)
    requires w.env == EnvState(t + 1, []) && w.dir.txn == Some(t) && names != []
    ensures WriteFiles(w, names) ==
            Step(World(w.dir.(txn := None), EnvState(t + |names|, []), w.log + CallerPart(t, names)), Ok)
  {
    CallerRoundFaultFree(w, t, names[0]);
    var k := World(w.dir.(txn := None), w.env, w.log + Round(t, names[0]));
    WriteFilesStep(w, names, k);
    WriteFilesFaultFree(k, names[1..]);
    CallerPartSplit(w.log, t, names);
  }

  /** `WriteFiles` past a first file whose create and close both returned, ending in `k`. */
  lemma WriteFilesStep(w: World, names: seq<string>, k: World)
    requires names != []
    requires var c := CreateOutput(w, names[0]);
               c.out.Success? && CloseOutput(c.w, c.out.value) == Step(k, Ok)
    ensures WriteFiles(w, names) == WriteFiles(k, names[1..])
  {
  }

  lemma CallerPartSplit(log: seq<Event>, t: TxnId, names: seq<string>)
    requires names != []
    ensures log + Round(t, names[0]) + AutoRounds(t + 1, names[1..]) == log + CallerPart(t, names)
  {
  }

  /**
   * From the caller's `beginTransaction()` of `t` to its `commitTransaction()`,
   * against a fault-free engine: the final commit finds nothing to commit
   * unless no file was written.
   */
  lemma CallerTxnFaultFree(w: World, t: TxnId, names: seq<string>)
    requires w.env == EnvState(t + 1, []) && w.dir.txn == Some(t)
    ensures var wr := WriteFiles(w, names);
              wr.out == Ok &&
              CommitTxn(wr.w) == Step(World(w.dir.(txn := None), EnvState(t + |names| + (if names == [] then 1 else 0), []),
                                            w.log + CallerPart(t, names)), Ok)
  {
    if names == [] {
      assert WriteFiles(w, names) == Step(w, Ok);
    } else {
      CallerFilesFaultFree(w, t, names);
    }
  }

  /** `close()` of an open directory with no transaction, against a fault-free engine. */
  lemma CloseFaultFree(w: World)
    requires w.env.faults == [] && w.dir == Dir(None, Open, Open)
    ensures Close(w) == Step(World(Dir(None, Closed, Closed), w.env,
                                   w.log + [Did(FlushBuffers, None, true), Did(CloseDb(Index), None, true),
                                            Did(CloseDb(Blocks), None, true)]), Ok)
  {
  }

  /** The calls of a fault-free `testBytes` writing run on an engine whose next id is `n`. */
  function FaultFreeLog(n: TxnId, names: seq<string>): seq<Event>
  {
    [Began(n), Did(OpenDb(Index), Some(n), true), Did(OpenDb(Blocks), Some(n), true),
     Committed(n, true), Began(n + 1)] + CallerPart(n + 1, names) +
    [Did(FlushBuffers, None, true), Did(CloseDb(Index), None, true), Did(CloseDb(Blocks), None, true)]
  }

  /**
   * `testBytes`' writing half, against an engine that never fails: the run
   * returns normally, with the log above, and the directory ends closed
   * with no transaction.
   */
  lemma TestBytesWriteFaultFree(n: TxnId, names: seq<string>)
    ensures var r := TestBytesWrite(EnvState(n, []), names);
              r.out == Ok && r.w.dir == Dir(None, Closed, Closed) && r.w.log == FaultFreeLog(n, names)
  {
    ConstructFaultFree(n);
    var c := Construct(EnvState(n, []));
    var b := BeginTxn(c.w);
    var head := [Began(n), Did(OpenDb(Index), Some(n), true), Did(OpenDb(Blocks), Some(n), true),
                 Committed(n, true), Began(n + 1)];
    assert b == Step(World(Dir(Some(n + 1), Open, Open), EnvState(n + 2, []), head), Ok);
    CallerTxnFaultFree(b.w, n + 1, names);
    var t := CommitTxn(WriteFiles(b.w, names).w);
    CloseFaultFree(t.w);
  }

  /** In the fault-free log the caller's transaction `n + 1` ends at the eighth call, and nothing is aborted. */
  lemma FaultFreeLogCommitsEarly(n: TxnId, names: seq<string>)
    ensures var log := FaultFreeLog(n, names);
              (names != [] ==> |log| > 7 && log[7] == Committed(n + 1, true)) &&
              forall e :: e in log ==> !e.Aborted?
  {
    var head := [Began(n), Did(OpenDb(Index), Some(n), true), Did(OpenDb(Blocks), Some(n), true),
                 Committed(n, true), Began(n + 1)];
    var tail := [Did(FlushBuffers, None, true), Did(CloseDb(Index), None, true), Did(CloseDb(Blocks), None, true)];
    var mid := CallerPart(n + 1, names);
    CallerPartNoAbort(n + 1, names);
    if names != [] {
      assert mid[2] == Committed(n + 1, true);
      assert (head + mid + tail)[7] == mid[2];
    }
    forall e | e in head + mid + tail
      ensures !e.Aborted?
    {
      assert e in head || e in mid || e in tail;
    }
  }

  /**
   * In the fault-free `testBytes` run the caller's transaction `n + 1` ends
   * at the first output close, the eighth call, and nothing is ever aborted.
   */
  lemma TestBytesWriteCommitsEarly(n: TxnId, names: seq<string>)
    ensures var log := TestBytesWrite(EnvState(n, []), names).w.log;
              (names != [] ==> |log| > 7 && log[7] == Committed(n + 1, true)) &&
              forall e :: e in log ==> !e.Aborted?
  {
    TestBytesWriteFaultFree(n, names);
    FaultFreeLogCommitsEarly(n, names);
  }

  /**
   * `close()` does not swallow a failing abort of a stale transaction: the
   * IOException ends it before either store handle is closed, though the
   * transaction is cleared.
   */
  lemma CloseThrowsOnFailedStaleAbort(w: World, t: TxnId, rest: seq<bool>)
    requires w.dir.txn == Some(t) && w.env.faults == [false, true] + rest
    ensures Close(w) == Step(World(w.dir.(txn := None), EnvState(w.env.nextId, rest),
                                   w.log + [Did(FlushBuffers, Some(t), true), Aborted(t, false)]),
                             Fail(IOError))
  {
    assert w.env.faults[1..] == [true] + rest;
  }

  /**
   * In auto-transaction mode `deleteFile` swallows a failing delete: the
   * transaction is aborted and the call returns normally.
   */
  lemma DeleteFileSwallowsFailedDelete(w: World, name: string, rest: seq<bool>)
    requires w.dir.txn.None? && w.env.faults == [false, true, false] + rest
    ensures var t := w.env.nextId;
            DeleteFile(w, name) ==
            Step(World(w.dir, EnvState(t + 1, rest),
                       w.log + [Began(t), Did(RemoveFile(name), Some(t), false), Aborted(t, true)]),
                 Ok)
  {
    assert w.env.faults[1..] == [true, false] + rest;
    assert w.env.faults[1..][1..] == [false] + rest;
  }
}

/**
 * The handle's transaction discipline as an invariant of the world: the
 * log is well-formed, the live transaction of the log is exactly the
 * handle's `txn` field, and every id the log has begun is below the id the
 * engine hands out next.  Every transition keeps it, so it holds after
 * any sequence of calls on a constructed handle.
 */
module DirectoryInvariant {
  import opened Engine
  import opened TxnLog
  import opened DirectorySpec

  ghost predicate Inv(w: World)
  {
    WellFormed(w.log) && Live(w.log) == TxnSet(w.dir.txn) &&
    forall id: TxnId :: Begins(w.log, id) > 0 ==> id < w.env.nextId
  }

  lemma FreshInv(env: EnvState)
    ensures Inv(Fresh(env))
  {
  }

  lemma PerformKeepsInv(w: World, a: Action, err: Error)
    requires Inv(w)
    ensures Inv(Perform(w, a, err).w)
  {
    var r := Perform(w, a, err);
    Extend(w.log, Did(a, w.dir.txn, r.out.Ok?));
  }

  lemma AbortKeepsInv(w: World)
    requires Inv(w)
    ensures Inv(AbortTxn(w).w)
  {
    if w.dir.txn.Some? {
      Extend(w.log, Aborted(w.dir.txn.value, AbortTxn(w).out.Ok?));
    }
  }

  lemma CommitKeepsInv(w: World)
    requires Inv(w)
    ensures Inv(CommitTxn(w).w)
  {
    if w.dir.txn.Some? {
      Extend(w.log, Committed(w.dir.txn.value, CommitTxn(w).out.Ok?));
    }
  }

  lemma StartKeepsInv(w: World)
    requires Inv(w) && w.dir.txn.None?
    ensures Inv(Start(w).w)
    ensures Start(w).out.Ok? ==> Begins(w.log, w.env.nextId) == 0
  {
    var g := Grant(w.env);
    if g.1.Some? {
      Extend(w.log, Began(g.1.value));
    } else {
      Extend(w.log, BeginRefused);
    }
  }

  /** The transaction `beginTransaction` starts has never been begun before. */
  lemma BeginKeepsInv(w: World)
    requires Inv(w)
    ensures Inv(BeginTxn(w).w)
    ensures BeginTxn(w).out.Ok? ==> Begins(w.log, w.env.nextId) == 0
  {
    AbortKeepsInv(w);
    var a := AbortTxn(w);
    if a.out.Ok? {
      StartKeepsInv(a.w);
      assert Begins(a.w.log, w.env.nextId) == 0 ==> Begins(w.log, w.env.nextId) == 0 by {
        if w.dir.txn.Some? {
          Extend(w.log, Aborted(w.dir.txn.value, true));
        }
      }
    }
  }

  lemma CreateOutputKeepsInv(w: World, name: string)
    requires Inv(w)
    ensures Inv(CreateOutput(w, name).w)
  {
    if w.dir.txn.None? {
      BeginKeepsInv(w);
      var b := BeginTxn(w);
      if b.out.Ok? {
        PerformKeepsInv(b.w, OpenOutput(name), IOError);
      }
    } else {
      PerformKeepsInv(w, OpenOutput(name), IOError);
    }
  }

  lemma CloseOutputKeepsInv(w: World, o: Output)
    requires Inv(w)
    ensures Inv(CloseOutput(w, o).w)
  {
    PerformKeepsInv(w, FinishOutput(o.name), IOError);
    CommitKeepsInv(Perform(w, FinishOutput(o.name), IOError).w);
  }

  lemma DeleteFileKeepsInv(w: World, name: string)
    requires Inv(w)
    ensures Inv(DeleteFile(w, name).w)
  {
    if w.dir.txn.None? {
      BeginKeepsInv(w);
      var b := BeginTxn(w);
      if b.out.Fail? {
        AbortKeepsInv(b.w);
      } else {
        PerformKeepsInv(b.w, RemoveFile(name), IOError);
        var d := Perform(b.w, RemoveFile(name), IOError);
        if d.out.Fail? {
          AbortKeepsInv(d.w);
        } else {
          CommitKeepsInv(d.w);
          AbortKeepsInv(CommitTxn(d.w).w);
        }
      }
    } else {
      PerformKeepsInv(w, RemoveFile(name), IOError);
    }
  }

  lemma CloseStoreKeepsInv(w: World, db: DbName)
    requires Inv(w)
    ensures Inv(CloseStore(w, db).w)
  {
    PerformKeepsInv(w, CloseDb(db), EngineError);
  }

  lemma CloseKeepsInv(w: World)
    requires Inv(w)
    ensures Inv(Close(w).w)
  {
    PerformKeepsInv(w, FlushBuffers, IOError);
    var f := Perform(w, FlushBuffers, IOError);
    AbortKeepsInv(f.w);
    var a := AbortTxn(f.w);
    CloseStoreKeepsInv(a.w, Index);
    CloseStoreKeepsInv(CloseStore(a.w, Index).w, Blocks);
  }

  lemma OpenStoresKeepsInv(w: World)
    requires Inv(w)
    ensures Inv(OpenStores(w).w)
  {
    PerformKeepsInv(w, OpenDb(Index), EngineError);
    var f := Perform(w, OpenDb(Index), EngineError);
    var f' := f.w.(dir := f.w.dir.(files := Open));
    PerformKeepsInv(f', OpenDb(Blocks), EngineError);
    var g := Perform(f', OpenDb(Blocks), EngineError);
    AbortKeepsInv(f.w);
    AbortKeepsInv(g.w);
  }

  lemma FinallyKeepsInv(s: Step)
    requires Inv(s.w)
    ensures Inv(Finally(s).w)
  {
    CommitKeepsInv(s.w);
  }

  /** The constructor's body, up to its `finally`, keeps the invariant. */
  lemma ConstructBodyInv(env: EnvState)
    ensures var b := BeginTxn(Fresh(env));
            Inv((if b.out.Fail? then b else OpenStores(b.w)).w)
  {
    FreshInv(env);
    BeginKeepsInv(Fresh(env));
    var b := BeginTxn(Fresh(env));
    if b.out.Ok? {
      OpenStoresKeepsInv(b.w);
    }
  }

  lemma ConstructInv(env: EnvState)
    ensures Inv(Construct(env).w)
  {
    ConstructBodyInv(env);
    var b := BeginTxn(Fresh(env));
    FinallyKeepsInv(if b.out.Fail? then b else OpenStores(b.w));
  }

  /** A public call on a directory handle or on one of its output channels. */
  datatype Call =
    | CallBegin
    | CallCommit
    | CallAbort
    | CallCreateOutput(name: string)
    | CallCloseOutput(o: Output)
    | CallDeleteFile(name: string)
    | CallClose

  function Apply(w: World, c: Call): World
  {
    match c
    case CallBegin => BeginTxn(w).w
    case CallCommit => CommitTxn(w).w
    case CallAbort => AbortTxn(w).w
    case CallCreateOutput(name) => CreateOutput(w, name).w
    case CallCloseOutput(o) => CloseOutput(w, o).w
    case CallDeleteFile(name) => DeleteFile(w, name).w
    case CallClose => Close(w).w
  }

  /** The world after the calls `cs`, made one after the other whatever each returned. */
  function Run(w: World, cs: seq<Call>): World
    decreases |cs|
  {
    if cs == [] then w else Run(Apply(w, cs[0]), cs[1..])
  }

  lemma ApplyKeepsInv(w: World, c: Call)
    requires Inv(w)
    ensures Inv(Apply(w, c))
  {
    match c
    case CallBegin => BeginKeepsInv(w);
    case CallCommit => CommitKeepsInv(w);
    case CallAbort => AbortKeepsInv(w);
    case CallCreateOutput(name) => CreateOutputKeepsInv(w, name);
    case CallCloseOutput(o) => CloseOutputKeepsInv(w, o);
    case CallDeleteFile(name) => DeleteFileKeepsInv(w, name);
    case CallClose => CloseKeepsInv(w);
  }

  lemma {:induction false} RunKeepsInv(w: World, cs: seq<Call>)
    requires Inv(w)
    ensures Inv(Run(w, cs))
    decreases |cs|
  {
    if cs != [] {
      ApplyKeepsInv(w, cs[0]);
      RunKeepsInv(Apply(w, cs[0]), cs[1..]);
    }
  }

  /**
   * After the constructor and any calls: no two transactions were ever live
   * at once, every transaction was ended at most once and only after it
   * was begun, and `transactionInProgress()` is true exactly when the log
   * has a live transaction.
   */
  lemma Discipline(env: EnvState, cs: seq<Call>)
    ensures var w := Run(Construct(env).w, cs);
              (forall k :: 0 <= k <= |w.log| ==> |Live(w.log[..k])| <= 1) &&
              (forall id: TxnId :: Endings(w.log, id) <= 1 && Endings(w.log, id) <= Begins(w.log, id)) &&
              (forall k, id :: 0 <= k < |w.log| && Ends(w.log[k], id) ==> Begins(w.log[..k], id) == 1) &&
              (InProgress(w.dir) <==> Live(w.log) != {})
  {
    ConstructInv(env);
    RunKeepsInv(Construct(env).w, cs);
    var w := Run(Construct(env).w, cs);
    NeverTwoLive(w.log);
    EndedOnlyAfterBegun(w.log);
    forall id: TxnId
      ensures Endings(w.log, id) <= 1 && Endings(w.log, id) <= Begins(w.log, id)
    {
      BeginsBalance(w.log, id);
    }
  }
}

/**
 * The transitions of a JEMongoDirectory handle and of the output channels
 * it creates, as functions on values.  A `World` holds the fields the
 * directory's methods update (the current transaction and the two store
 * handles), the engine, and the log of calls the handle has made.  Each
 * function returns the new world and how the Java method ends.
 */
module DirectorySpec {
  import opened Engine
  import opened TxnLog

  /** The fields of a JEMongoDirectory that its methods update. */
  datatype Dir = Dir(txn: Option<TxnId>, files: Store, blocks: Store)

  /** A directory handle, the engine it runs against, and the calls it has made. */
  datatype World = World(dir: Dir, env: EnvState, log: seq<Event>)

  /** The world after a void method, and whether the method returned or threw. */
  datatype Step = Step(w: World, out: Outcome)

  /**
   * An output channel: the file name and the create flag it was opened
   * with.  It captures no transaction; it acts on its directory's.
   */
  datatype Output = Output(name: string, create: bool)

  datatype OutputStep = OutputStep(w: World, out: Result<Output>)

  /** `transactionInProgress()`. */
  predicate InProgress(d: Dir)
  {
    d.txn.Some?
  }

  /** `good()`; the environment is non-null by the constructor's contract. */
  predicate Good(d: Dir)
  {
    d.files != Null && d.blocks != Null
  }

  /** The handle as `super(null, null, null, 0)` leaves it. */
  function Fresh(env: EnvState): World
  {
    World(Dir(None, Null, Null), env, [])
  }

  /** The events a successful abort of the stale transaction adds, if there is one. */
  function StaleAbort(w: World): seq<Event>
  {
    if w.dir.txn.Some? then [Aborted(w.dir.txn.value, true)] else []
  }

  /** The events a commit with outcome `ok` adds: one, on the active transaction, if there is one. */
  function CommitEvents(w: World, ok: bool): seq<Event>
  {
    if w.dir.txn.Some? then [Committed(w.dir.txn.value, ok)] else []
  }

  /**
   * An opaque call (into the engine, or into inherited code that uses it)
   * made while `w.dir.txn` is the handle's transaction; it fails with `err`.
   */
  function Perform(w: World, a: Action, err: Error): (r: Step)
    ensures r.w.dir == w.dir && r.w.env.nextId == w.env.nextId
    ensures r.w.log == w.log + [Did(a, w.dir.txn, r.out.Ok?)]
    ensures r.out == Ok || r.out == Fail(err)
  {
    var (e, ok) := Respond(w.env);
    Step(World(w.dir, e, w.log + [Did(a, w.dir.txn, ok)]), if ok then Ok else Fail(err))
  }

  /**
   * `abortTransaction()`: a no-op without a transaction; otherwise one
   * abort of the active transaction, after which none is active even if
   * the engine failed, the failure surfacing as an IOException.
   */
  function AbortTxn(w: World): (r: Step)
    ensures r.w.dir == w.dir.(txn := None)
    ensures r.w.env.nextId == w.env.nextId
    ensures w.dir.txn.None? ==> r == Step(w, Ok)
    ensures w.dir.txn.Some? ==> r.w.log == w.log + [Aborted(w.dir.txn.value, r.out.Ok?)]
    ensures r.out == Ok || r.out == Fail(IOError)
  {
    match w.dir.txn
    case None => Step(w, Ok)
    case Some(id) =>
      var (e, ok) := Respond(w.env);
      Step(World(w.dir.(txn := None), e, w.log + [Aborted(id, ok)]), if ok then Ok else Fail(IOError))
  }

  /**
   * `commitTransaction()`: a no-op without a transaction; otherwise one
   * commit of the active transaction, after which none is active even if
   * the engine failed, the failure surfacing as an IOException.
   */
  function CommitTxn(w: World): (r: Step)
    ensures r.w.dir == w.dir.(txn := None)
    ensures r.w.env.nextId == w.env.nextId
    ensures w.dir.txn.None? ==> r == Step(w, Ok)
    ensures r.w.log == w.log + CommitEvents(w, r.out.Ok?)
    ensures r.out == Ok || r.out == Fail(IOError)
  {
    match w.dir.txn
    case None => Step(w, Ok)
    case Some(id) =>
      var (e, ok) := Respond(w.env);
      Step(World(w.dir.(txn := None), e, w.log + [Committed(id, ok)]), if ok then Ok else Fail(IOError))
  }

  /**
   * `beginTransaction()`: a stale transaction is aborted before the engine
   * is asked for a new one.  It succeeds exactly when a transaction is
   * active afterwards, and that is the fresh one the engine handed out;
   * if the stale abort fails or the engine refuses, none is active.
   */
  function BeginTxn(w: World): (r: Step)
    ensures r.w.dir.files == w.dir.files && r.w.dir.blocks == w.dir.blocks
    ensures r.out.Ok? <==> r.w.dir.txn.Some?
    ensures r.out.Ok? ==>
              r.w.dir.txn == Some(w.env.nextId) && r.w.env.nextId == w.env.nextId + 1 &&
              r.w.log == w.log + StaleAbort(w) + [Began(w.env.nextId)]
    ensures r.out.Fail? ==>
              r.out.error == IOError && r.w.env.nextId == w.env.nextId &&
              (r.w.log == w.log + StaleAbort(w) + [BeginRefused] ||
               (w.dir.txn.Some? && r.w.log == w.log + [Aborted(w.dir.txn.value, false)]))
  {
    var a := AbortTxn(w);
    if a.out.Fail? then a else Start(a.w)
  }

  /** `txn = env.beginTransaction(parent, transConfig)`, an engine refusal surfacing as an IOException. */
  function Start(w: World): Step
  {
    var (e, t) := Grant(w.env);
    match t
    case None => Step(World(w.dir, e, w.log + [BeginRefused]), Fail(IOError))
    case Some(id) => Step(World(w.dir.(txn := Some(id)), e, w.log + [Began(id)]), Ok)
  }

  /**
   * `createOutput(name)`: begins a transaction only when none is in
   * progress, never replacing the caller's, then opens a channel with
   * `create = true`.  On success a transaction is active; if the
   * inherited channel constructor fails, an auto-begun transaction stays
   * active.
   */
  function CreateOutput(w: World, name: string): (r: OutputStep)
    ensures r.w.dir.files == w.dir.files && r.w.dir.blocks == w.dir.blocks
    ensures w.dir.txn.Some? ==>
              r.w.dir == w.dir && r.w.env.nextId == w.env.nextId &&
              r.w.log == w.log + [Did(OpenOutput(name), w.dir.txn, r.out.Success?)]
    ensures w.dir.txn.None? && r.w.dir.txn.Some? ==>
              r.w.dir.txn == Some(w.env.nextId) &&
              r.w.log == w.log + [Began(w.env.nextId), Did(OpenOutput(name), r.w.dir.txn, r.out.Success?)]
    ensures r.out.Success? ==> r.out.value == Output(name, true) && r.w.dir.txn.Some?
    ensures r.out.Failure? ==> r.out.error == IOError
  {
    var b := if w.dir.txn.None? then BeginTxn(w) else Step(w, Ok);
    if b.out.Fail? then OutputStep(b.w, Failure(b.out.error))
    else
      var s := Perform(b.w, OpenOutput(name), IOError);
      OutputStep(s.w, if s.out.Ok? then Success(Output(name, true)) else Failure(IOError))
  }

  /**
   * `JEMongoIndexOutput.close()`: the inherited close runs first, and only
   * if it returns is the directory's transaction (whichever is active
   * now) committed.  After a successful inherited close no transaction is
   * active, whether or not the commit succeeds; after a failed one the
   * directory is unchanged, its transaction still active.
   */
  function CloseOutput(w: World, o: Output): (r: Step)
    ensures r.out == Ok || r.out == Fail(IOError)
    ensures w.dir.txn.None? ==> r.w.dir == w.dir
    ensures (r.w.log == w.log + [Did(FinishOutput(o.name), w.dir.txn, false)] &&
             r.w.dir == w.dir && r.out == Fail(IOError))
         || (r.w.log == w.log + [Did(FinishOutput(o.name), w.dir.txn, true)] + CommitEvents(w, r.out.Ok?) &&
             r.w.dir == w.dir.(txn := None))
  {
    var s := Perform(w, FinishOutput(o.name), IOError);
    if s.out.Fail? then s else CommitTxn(s.w)
  }

  /** The runs `deleteFile` can have in auto-transaction mode; `t` is the id the engine hands out. */
  predicate AutoDeleteRun(w: World, name: string, r: Step)
  {
    var t := w.env.nextId;
    var done := Did(RemoveFile(name), Some(t), true);
    (r.w.log == w.log + [BeginRefused] && r.out == Ok)
    || (r.w.log == w.log + [Began(t), done, Committed(t, true)] && r.out == Ok)
    || (r.w.log == w.log + [Began(t), done, Committed(t, false)] && r.out == Ok)
    || r.w.log == w.log + [Began(t), Did(RemoveFile(name), Some(t), false), Aborted(t, r.out.Ok?)]
  }

  /**
   * `deleteFile(name)`.  With no transaction in progress it begins one,
   * deletes and commits, aborting if any step throws and swallowing that
   * error (only a failing abort surfaces).  With the caller's transaction
   * in progress it deletes inside it and neither commits nor aborts.
   * Either way the directory's fields are as they were.
   */
  function DeleteFile(w: World, name: string): (r: Step)
    ensures r.w.dir == w.dir
    ensures r.out == Ok || r.out == Fail(IOError)
    ensures w.dir.txn.Some? ==> r.w.log == w.log + [Did(RemoveFile(name), w.dir.txn, r.out.Ok?)]
    ensures w.dir.txn.None? ==> AutoDeleteRun(w, name, r)
  {
    if w.dir.txn.None? then
      var b := BeginTxn(w);
      if b.out.Fail? then AbortTxn(b.w)
      else
        var d := Perform(b.w, RemoveFile(name), IOError);
        if d.out.Fail? then AbortTxn(d.w)
        else
          var c := CommitTxn(d.w);
          if c.out.Fail? then AbortTxn(c.w) else c
    else
      Perform(w, RemoveFile(name), IOError)
  }

  /** `if (files != null) files.close();`, and the same for `blocks`. */
  function CloseStore(w: World, db: DbName): (r: Step)
    ensures r.w.dir.txn == w.dir.txn && r.w.env.nextId == w.env.nextId
    ensures r.out == Ok || r.out == Fail(EngineError)
    ensures var s := if db == Index then w.dir.files else w.dir.blocks;
            (s == Null ==> r == Step(w, Ok)) &&
            (s != Null ==> r.w.log == w.log + [Did(CloseDb(db), w.dir.txn, r.out.Ok?)]) &&
            (r.out.Fail? ==> r.w.dir == w.dir) &&
            (r.out.Ok? ==> r.w.dir == if db == Index then w.dir.(files := Shut(s)) else w.dir.(blocks := Shut(s)))
  {
    var s := if db == Index then w.dir.files else w.dir.blocks;
    if s == Null then Step(w, Ok)
    else
      var p := Perform(w, CloseDb(db), EngineError);
      if p.out.Fail? then p
      else
        var d := if db == Index then p.w.dir.(files := Closed) else p.w.dir.(blocks := Closed);
        Step(p.w.(dir := d), Ok)
  }

  /** A store handle after a successful `close()`: a non-null one is closed. */
  function Shut(s: Store): Store
  {
    if s == Null then Null else Closed
  }

  /** The calls a successful `close()` makes on the two store handles. */
  function StoreCloses(d: Dir): seq<Event>
  {
    (if d.files != Null then [Did(CloseDb(Index), None, true)] else []) +
    (if d.blocks != Null then [Did(CloseDb(Blocks), None, true)] else [])
  }

  /**
   * `close()`: flushes, aborts (never commits) a transaction left open,
   * then closes the non-null store handles, never the environment.  A
   * failing flush or abort ends it there, with an IOException.
   */
  function Close(w: World): (r: Step)
    ensures r.w.env.nextId == w.env.nextId
    ensures r.out.Ok? ==>
              r.w.dir == Dir(None, Shut(w.dir.files), Shut(w.dir.blocks)) &&
              r.w.log == w.log + [Did(FlushBuffers, w.dir.txn, true)] + StaleAbort(w) + StoreCloses(w.dir)
    ensures r.out.Fail? ==>
              r.w.dir.files in {w.dir.files, Shut(w.dir.files)} && r.w.dir.blocks in {w.dir.blocks, Shut(w.dir.blocks)}
    ensures r.w.dir.txn.None? || r.w.dir == w.dir
  {
    var f := Perform(w, FlushBuffers, IOError);
    if f.out.Fail? then f
    else
      var a := AbortTxn(f.w);
      if a.out.Fail? then a
      else
        var c := CloseStore(a.w, Index);
        if c.out.Fail? then c else CloseStore(c.w, Blocks)
  }

  /** `files = env.openDatabase(txn, ...)` then the same for `blocks`, stopping at the first throw. */
  function OpenBoth(w: World): Step
  {
    var f := Perform(w, OpenDb(Index), EngineError);
    if f.out.Fail? then f
    else
      var g := Perform(f.w.(dir := f.w.dir.(files := Open)), OpenDb(Blocks), EngineError);
      if g.out.Fail? then g else Step(g.w.(dir := g.w.dir.(blocks := Open)), Ok)
  }

  /**
   * The `try` block of the constructor and its `catch (DatabaseException e)`:
   * both stores are opened under the current transaction; if an open
   * throws, the transaction is aborted and, once the abort has succeeded,
   * both store fields are nulled and the DatabaseException rethrown.
   */
  function OpenStores(w: World): (r: Step)
    ensures r.w.env.nextId == w.env.nextId
    ensures r.out.Ok? ==>
              r.w.dir == w.dir.(files := Open, blocks := Open) &&
              r.w.log == w.log + [Did(OpenDb(Index), w.dir.txn, true), Did(OpenDb(Blocks), w.dir.txn, true)]
    ensures r.out.Fail? ==> r.w.dir.txn.None?
    ensures w.dir.txn.Some? && r.out.Fail? ==>
              |r.w.log| > 0 && r.w.log[|r.w.log| - 1] == Aborted(w.dir.txn.value, r.out == Fail(EngineError))
    ensures r.out == Fail(EngineError) ==> r.w.dir.files == Null && r.w.dir.blocks == Null
    ensures r.out == Fail(IOError) ==> w.dir.txn.Some? && Aborted(w.dir.txn.value, false) in r.w.log
  {
    var t := OpenBoth(w);
    if t.out.Ok? then t
    else
      var a := AbortTxn(t.w);
      if a.out.Fail? then a else Step(a.w.(dir := a.w.dir.(files := Null, blocks := Null)), t.out)
  }

  /** A `finally { commitTransaction(); }`: its exception, if any, replaces the pending outcome. */
  function Finally(s: Step): (r: Step)
    ensures r.w.dir == s.w.dir.(txn := None)
    ensures r.out.Ok? ==> s.out.Ok? && r.w.log == s.w.log + CommitEvents(s.w, true)
    ensures r.out == Fail(EngineError) ==> s.out == Fail(EngineError)
  {
    var c := CommitTxn(s.w);
    if c.out.Fail? then c else Step(c.w, s.out)
  }

  /**
   * The constructor `JEMongoDirectory(env, dbConfig)`: opens both stores
   * inside one transaction and commits it.  Afterwards no transaction is
   * active, whatever happened.  On success both stores are open and the
   * handle is good; if the handle is not good the constructor threw; if
   * opening a store threw (and the abort succeeded) both handles are null.
   */
  function Construct(env: EnvState): (r: Step)
    ensures r.w.dir.txn.None?
    ensures r.out.Ok? ==>
              r.w.dir == Dir(None, Open, Open) &&
              r.w.log == [Began(env.nextId), Did(OpenDb(Index), Some(env.nextId), true),
                          Did(OpenDb(Blocks), Some(env.nextId), true), Committed(env.nextId, true)]
    ensures !Good(r.w.dir) ==> r.out.Fail?
    ensures r.out == Fail(EngineError) ==> r.w.dir.files == Null && r.w.dir.blocks == Null
  {
    var b := BeginTxn(Fresh(env));
    Finally(if b.out.Fail? then b else OpenStores(b.w))
  }

  /** `log` extends `before` with aborts and opaque calls only: no begin, no commit. */
  ghost predicate OnlyAbortsAndCalls(before: seq<Event>, log: seq<Event>)
  {
    |before| <= |log| && log[..|before|] == before &&
    forall i :: |before| <= i < |log| ==> log[i].Aborted? || log[i].Did?
  }

  lemma OnlyAbortsAndCallsTrans(a: seq<Event>, b: seq<Event>, c: seq<Event>)
    requires OnlyAbortsAndCalls(a, b) && OnlyAbortsAndCalls(b, c)
    ensures OnlyAbortsAndCalls(a, c)
  {
    assert c[..|a|] == c[..|b|][..|a|];
  }

  /** `close()` never commits and never begins a transaction. */
  lemma CloseNeverCommits(w: World)
    ensures OnlyAbortsAndCalls(w.log, Close(w).w.log)
  {
    var f := Perform(w, FlushBuffers, IOError);
    assert OnlyAbortsAndCalls(w.log, f.w.log);
    if f.out.Ok? {
      var a := AbortTxn(f.w);
      assert OnlyAbortsAndCalls(f.w.log, a.w.log);
      OnlyAbortsAndCallsTrans(w.log, f.w.log, a.w.log);
      if a.out.Ok? {
        var c := CloseStore(a.w, Index);
        assert OnlyAbortsAndCalls(a.w.log, c.w.log);
        OnlyAbortsAndCallsTrans(w.log, a.w.log, c.w.log);
        if c.out.Ok? {
          var d := CloseStore(c.w, Blocks);
          assert OnlyAbortsAndCalls(c.w.log, d.w.log);
          OnlyAbortsAndCallsTrans(w.log, c.w.log, d.w.log);
        }
      }
    }
  }
}

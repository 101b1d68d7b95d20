/**
 * JEMongoDirectory and JEMongoIndexOutput as classes whose methods update
 * the directory's fields in place.  Each method is proved to end in the
 * state, and with the outcome, that the matching transition of
 * DirectorySpec gives, and to keep the transaction discipline of
 * DirectoryInvariant.  The ghost `log` records the calls the handle makes.
 */
module JEMongo {
  import opened Engine
  import opened TxnLog
  import S = DirectorySpec
  import opened DirectoryInvariant

  class JEMongoDirectory {
    const env: Environment
    var txn: Option<TxnId>
    var files: Store
    var blocks: Store
    /** The calls this handle has made, in order. */
    ghost var log: seq<Event>

    ghost function Abs(): S.World
      reads this, env
    {
      S.World(S.Dir(txn, files, blocks), env.state, log)
    }

    ghost predicate Valid()
      reads this, env
    {
      Inv(Abs())
    }

    /** The field initialisation of the constructor: `super(null, null, null, 0); this.env = env`. */
    constructor Init(env: Environment)
      ensures this.env == env && Abs() == S.Fresh(env.state) && Valid()
    {
      this.env := env;
      txn, files, blocks := None, Null, Null;
      log := [];
      new;
      FreshInv(env.state);
    }

    /**
     * The constructor `JEMongoDirectory(env, dbConfig)`.  A Java constructor
     * that throws hands no object to its caller; here the object is returned
     * together with the outcome, so that its state can be stated either way.
     */
    static method Create(env: Environment) returns (d: JEMongoDirectory, out: Outcome)
      modifies env
      ensures fresh(d) && d.env == env && d.Valid()
      ensures S.Step(d.Abs(), out) == S.Construct(old(env.state))
      ensures d.txn.None?
    {
      d := new JEMongoDirectory.Init(env);
      var body := d.BeginTransaction();
      if body.Ok? {
        body := d.OpenStores();
      }
      // finally
      var c := d.CommitTransaction();
      out := if c.Fail? then c else body;
    }

    /** The constructor's `try` block, which opens both stores, and its `catch (DatabaseException e)`. */
    method OpenStores() returns (out: Outcome)
      requires Valid()
      modifies this, env
      ensures Valid()
      ensures S.Step(Abs(), out) == S.OpenStores(old(Abs()))
    {
      OpenStoresKeepsInv(Abs());
      ghost var before := Abs();
      out := Perform(OpenDb(Index), EngineError);
      if out.Ok? {
        files := Open;
        out := Perform(OpenDb(Blocks), EngineError);
        if out.Ok? {
          blocks := Open;
        }
      }
      assert S.Step(Abs(), out) == S.OpenBoth(before);
      if out.Fail? {
        var a := AbortTransaction();
        if a.Fail? {
          out := a;
        } else {
          files, blocks := Null, Null;
        }
      }
    }

    /** A call into the engine or into inherited code, made under the current transaction. */
    method Perform(a: Action, err: Error) returns (out: Outcome)
      requires Valid()
      modifies this, env
      ensures Valid()
      ensures S.Step(Abs(), out) == S.Perform(old(Abs()), a, err)
    {
      PerformKeepsInv(Abs(), a, err);
      var ok := env.Call();
      log := log + [Did(a, txn, ok)];
      out := if ok then Ok else Fail(err);
    }

    function TransactionInProgress(): (r: bool)
      requires Valid()
      reads this, env
      ensures r <==> Live(log) != {}
    {
      txn.Some?
    }

    function Good(): (r: bool)
      reads this
      ensures r <==> S.Good(S.Dir(txn, files, blocks))
    {
      files != Null && blocks != Null
    }

    method BeginTransaction() returns (out: Outcome)
      requires Valid()
      modifies this, env
      ensures Valid()
      ensures S.Step(Abs(), out) == S.BeginTxn(old(Abs()))
      ensures out.Ok? <==> txn.Some?
    {
      BeginKeepsInv(Abs());
      if txn.Some? {
        // a warning is printed here
        out := AbortTransaction();
        if out.Fail? {
          return;
        }
      }
      out := StartTransaction();
    }

    /** `txn = env.beginTransaction(parent, transConfig)`, a refusal rethrown as an IOException. */
    method StartTransaction() returns (out: Outcome)
      requires Valid() && txn.None?
      modifies this, env
      ensures Valid()
      ensures S.Step(Abs(), out) == S.Start(old(Abs()))
    {
      StartKeepsInv(Abs());
      var t := env.BeginTransaction();
      match t
      case None =>
        log := log + [BeginRefused];
        out := Fail(IOError);
      case Some(id) =>
        txn := t;
        log := log + [Began(id)];
        out := Ok;
    }

    method CommitTransaction() returns (out: Outcome)
      requires Valid()
      modifies this, env
      ensures Valid() && txn.None?
      ensures S.Step(Abs(), out) == S.CommitTxn(old(Abs()))
    {
      CommitKeepsInv(Abs());
      if txn.Some? {
        var id := txn.value;
        var ok := env.Call();
        txn := None;
        log := log + [Committed(id, ok)];
        out := if ok then Ok else Fail(IOError);
      } else {
        out := Ok;
      }
    }

    method AbortTransaction() returns (out: Outcome)
      requires Valid()
      modifies this, env
      ensures Valid() && txn.None?
      ensures S.Step(Abs(), out) == S.AbortTxn(old(Abs()))
    {
      AbortKeepsInv(Abs());
      if txn.Some? {
        var id := txn.value;
        var ok := env.Call();
        txn := None;
        log := log + [Aborted(id, ok)];
        out := if ok then Ok else Fail(IOError);
      } else {
        out := Ok;
      }
    }

    /**
     * `createOutput(name)`.  The inherited channel constructor, which may
     * throw, runs before the channel object is allocated.
     */
    method CreateOutput(name: string) returns (r: Result<JEMongoIndexOutput>)
      requires Valid()
      modifies this, env
      ensures Valid()
      ensures S.OutputStep(Abs(), if r.Success? then Success(S.Output(name, true)) else Failure(r.error))
              == S.CreateOutput(old(Abs()), name)
      ensures r.Success? ==> fresh(r.value) && r.value.directory == this && r.value.name == name && r.value.create
    {
      CreateOutputKeepsInv(Abs(), name);
      if !TransactionInProgress() {
        var b := BeginTransaction();
        if b.Fail? {
          return Failure(b.error);
        }
      }
      var made := Perform(OpenOutput(name), IOError);
      if made.Fail? {
        return Failure(IOError);
      }
      var o := new JEMongoIndexOutput(this, name, true);
      r := Success(o);
    }

    method DeleteFile(name: string) returns (out: Outcome)
      requires Valid()
      modifies this, env
      ensures Valid()
      ensures S.Step(Abs(), out) == S.DeleteFile(old(Abs()), name)
    {
      DeleteFileKeepsInv(Abs(), name);
      if !TransactionInProgress() {
        // try { begin; delete; commit } catch (Exception e) { abort }
        var b := BeginTransaction();
        if b.Fail? {
          out := AbortTransaction();
          return;
        }
        var d := Perform(RemoveFile(name), IOError);
        if d.Fail? {
          out := AbortTransaction();
          return;
        }
        var c := CommitTransaction();
        if c.Fail? {
          out := AbortTransaction();
          return;
        }
        out := Ok;
      } else {
        out := Perform(RemoveFile(name), IOError);
      }
    }

    method Close() returns (out: Outcome)
      requires Valid()
      modifies this, env
      ensures Valid()
      ensures S.Step(Abs(), out) == S.Close(old(Abs()))
    {
      CloseKeepsInv(Abs());
      out := Perform(FlushBuffers, IOError);
      if out.Fail? {
        return;
      }
      if txn.Some? {
        // a warning is printed here
        out := AbortTransaction();
        if out.Fail? {
          return;
        }
      }
      out := CloseStore(Index);
      if out.Ok? {
        out := CloseStore(Blocks);
      }
    }

    /** `if (files != null) files.close();`, and the same for `blocks`. */
    method CloseStore(db: DbName) returns (out: Outcome)
      requires Valid()
      modifies this, env
      ensures Valid()
      ensures S.Step(Abs(), out) == S.CloseStore(old(Abs()), db)
    {
      CloseStoreKeepsInv(Abs(), db);
      var s := if db == Index then files else blocks;
      if s == Null {
        return Ok;
      }
      ghost var before := Abs();
      out := Perform(CloseDb(db), EngineError);
      ghost var p := S.Perform(before, CloseDb(db), EngineError);
      assert Abs() == p.w && out == p.out;
      if out.Ok? {
        if db == Index {
          files := Closed;
        } else {
          blocks := Closed;
        }
        assert Abs() == S.CloseStore(before, db).w;
      }
    }
  }

  class JEMongoIndexOutput {
    /** The directory this channel was created by; `close()` acts on its current transaction. */
    const directory: JEMongoDirectory
    const name: string
    const create: bool

    constructor (directory: JEMongoDirectory, name: string, create: bool)
      ensures this.directory == directory && this.name == name && this.create == create
    {
      this.directory := directory;
      this.name := name;
      this.create := create;
    }

    /** The inherited close, then the directory's `commitTransaction()`. */
    method Close() returns (out: Outcome)
      requires directory.Valid()
      modifies directory, directory.env
      ensures directory.Valid()
      ensures S.Step(directory.Abs(), out) == S.CloseOutput(old(directory.Abs()), S.Output(name, create))
    {
      CloseOutputKeepsInv(directory.Abs(), S.Output(name, create));
      out := directory.Perform(FinishOutput(name), IOError);
      if out.Ok? {
        out := directory.CommitTransaction();
      }
    }
  }
}

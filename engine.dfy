/**
 * The Berkeley DB JE environment as one directory handle sees it.
 *
 * The engine's internals are not modelled.  It hands out fresh transaction
 * ids, and every call into it (or into the inherited Lucene JE code that
 * talks to it) either succeeds or fails.  Which calls fail is fixed by a
 * script of outcomes, so a property proved for every script holds whatever
 * the engine does.
 */
module Engine {
  type TxnId = nat

  datatype Option<+T> = None | Some(value: T)

  /** The two databases a directory opens in the environment. */
  datatype DbName = Index | Blocks

  /**
   * A `Database` reference field: null, or a handle that is open or has
   * been closed (closing a handle does not null the field).
   */
  datatype Store = Null | Open | Closed

  /** `IOException`, and the engine's own `DatabaseException`. */
  datatype Error = IOError | EngineError

  /** How a void Java method ends: it returns, or it throws. */
  datatype Outcome = Ok | Fail(error: Error)

  /** How a Java method with a result ends. */
  datatype Result<+T> = Success(value: T) | Failure(error: Error)

  /** Calls into the engine or into inherited code, each an opaque step. */
  datatype Action =
    | OpenDb(db: DbName)          // env.openDatabase
    | CloseDb(db: DbName)         // Database.close
    | FlushBuffers                // the inherited JEDirectory.flush
    | OpenOutput(name: string)    // the inherited JEIndexOutput constructor
    | FinishOutput(name: string)  // the inherited JEIndexOutput.close
    | RemoveFile(name: string)    // the inherited File.delete

  /** One entry in a directory handle's log of the calls it made. */
  datatype Event =
    | Began(id: TxnId)
    | BeginRefused
    | Committed(id: TxnId, ok: bool)
    | Aborted(id: TxnId, ok: bool)
    | Did(action: Action, txn: Option<TxnId>, ok: bool)

  /**
   * The engine: the id its next transaction gets, and the scripted
   * outcomes of its coming calls (`true` means that call fails).
   */
  datatype EnvState = EnvState(nextId: TxnId, faults: seq<bool>)

  /** One call into the engine: the next scripted outcome, or success once the script is used up. */
  function Respond(e: EnvState): (EnvState, bool)
  {
    if e.faults == [] then (e, true) else (e.(faults := e.faults[1..]), !e.faults[0])
  }

  /** `env.beginTransaction`: a transaction with a fresh id, or a refusal. */
  function Grant(e: EnvState): (EnvState, Option<TxnId>)
  {
    var (e', ok) := Respond(e);
    if ok then (e'.(nextId := e.nextId + 1), Some(e.nextId)) else (e', None)
  }

  /** The JE `Environment` object that directories are opened in. */
  class Environment {
    var state: EnvState

    constructor (faults: seq<bool>)
      ensures state == EnvState(0, faults)
    {
      state := EnvState(0, faults);
    }

    /** Any call that either succeeds or throws. */
    method Call() returns (ok: bool)
      modifies this
      ensures (state, ok) == Respond(old(state))
    {
      var (e, o) := Respond(state);
      state, ok := e, o;
    }

    method BeginTransaction() returns (t: Option<TxnId>)
      modifies this
      ensures (state, t) == Grant(old(state))
    {
      var (e, g) := Grant(state);
      state, t := e, g;
    }
  }
}

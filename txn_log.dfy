/**
 * The log of calls a directory handle makes, and what it means for that
 * log to respect the handle's single-transaction discipline: a transaction
 * begins only when none is live, only the live transaction is committed or
 * aborted, and every other call runs under the live transaction (or none).
 */
module TxnLog {
  import opened Engine

  function TxnSet(t: Option<TxnId>): set<TxnId>
  {
    if t.Some? then {t.value} else {}
  }

  /** The live transactions after event `e`, given those live before it. */
  function After(live: set<TxnId>, e: Event): set<TxnId>
  {
    match e
    case Began(id) => live + {id}
    case Committed(id, _) => live - {id}
    case Aborted(id, _) => live - {id}
    case _ => live
  }

  /** The transactions begun and not yet committed or aborted at the end of `log`. */
  function Live(log: seq<Event>): set<TxnId>
    decreases |log|
  {
    if log == [] then {} else After(Live(log[..|log| - 1]), log[|log| - 1])
  }

  /** Whether `e` ends transaction `id` (a commit or an abort, successful or not). */
  predicate Ends(e: Event, id: TxnId)
  {
    (e.Committed? || e.Aborted?) && e.id == id
  }

  /** How many times `log` begins transaction `id`. */
  function Begins(log: seq<Event>, id: TxnId): nat
    decreases |log|
  {
    if log == [] then 0
    else Begins(log[..|log| - 1], id) + (if log[|log| - 1] == Began(id) then 1 else 0)
  }

  /** How many times `log` ends transaction `id`. */
  function Endings(log: seq<Event>, id: TxnId): nat
    decreases |log|
  {
    if log == [] then 0
    else Endings(log[..|log| - 1], id) + (if Ends(log[|log| - 1], id) then 1 else 0)
  }

  /** Event `e` may follow the log `p`. */
  predicate Fits(p: seq<Event>, e: Event)
  {
    match e
    case Began(id) => Live(p) == {} && Begins(p, id) == 0
    case BeginRefused => Live(p) == {}
    case Committed(id, _) => Live(p) == {id}
    case Aborted(id, _) => Live(p) == {id}
    case Did(_, t, _) => Live(p) == TxnSet(t)
  }

  /** Every event of `log` fits the events before it. */
  ghost predicate WellFormed(log: seq<Event>)
    decreases |log|
  {
    log == [] || (WellFormed(log[..|log| - 1]) && Fits(log[..|log| - 1], log[|log| - 1]))
  }

  /** How the log functions step over one appended event. */
  lemma Extend(p: seq<Event>, e: Event)
    ensures WellFormed(p + [e]) <==> WellFormed(p) && Fits(p, e)
    ensures Live(p + [e]) == After(Live(p), e)
    ensures forall id :: Begins(p + [e], id) == Begins(p, id) + (if e == Began(id) then 1 else 0)
    ensures forall id :: Endings(p + [e], id) == Endings(p, id) + (if Ends(e, id) then 1 else 0)
  {
    assert (p + [e])[..|p|] == p;
  }

  /** Never more than one transaction is live. */
  lemma {:induction false} AtMostOneLive(log: seq<Event>)
    requires WellFormed(log)
    ensures |Live(log)| <= 1
  {
    if log != [] {
      var p, e := log[..|log| - 1], log[|log| - 1];
      assert log == p + [e];
      AtMostOneLive(p);
      match e
      case Committed(id, _) => assert Live(log) == {};
      case Aborted(id, _) => assert Live(log) == {};
      case _ =>
    }
  }

  /**
   * Accounting for one transaction id: it is begun at most once, and once
   * begun it is either still live or has been ended exactly once.
   */
  lemma {:induction false} BeginsBalance(log: seq<Event>, id: TxnId)
    requires WellFormed(log)
    ensures Begins(log, id) <= 1
    ensures Endings(log, id) + (if id in Live(log) then 1 else 0) == Begins(log, id)
  {
    if log != [] {
      var p, e := log[..|log| - 1], log[|log| - 1];
      assert log == p + [e];
      Extend(p, e);
      BeginsBalance(p, id);
    }
  }

  /** Every transaction is ended at most once, and only one that was begun. */
  lemma EndedAtMostOnce(log: seq<Event>, id: TxnId)
    requires WellFormed(log)
    ensures Endings(log, id) <= 1
    ensures Endings(log, id) == 1 ==> Begins(log, id) == 1 && id !in Live(log)
    ensures forall k :: 0 <= k < |log| && Ends(log[k], id) ==> Begins(log[..k], id) == 1
  {
    BeginsBalance(log, id);
    EndedOnlyAfterBegun(log);
  }

  /** In a well-formed log every commit or abort comes after the one begin of its transaction. */
  lemma EndedOnlyAfterBegun(log: seq<Event>)
    requires WellFormed(log)
    ensures forall k, id :: 0 <= k < |log| && Ends(log[k], id) ==> Begins(log[..k], id) == 1
  {
    forall k, id | 0 <= k < |log| && Ends(log[k], id)
      ensures Begins(log[..k], id) == 1
    {
      CallsRunUnderLiveTxn(log, k);
      PrefixWellFormed(log, k);
      BeginsBalance(log[..k], id);
    }
  }

  /** Every prefix of a well-formed log is well-formed. */
  lemma {:induction false} PrefixWellFormed(log: seq<Event>, k: nat)
    requires WellFormed(log) && k <= |log|
    ensures WellFormed(log[..k])
    decreases |log| - k
  {
    if k < |log| {
      var p := log[..|log| - 1];
      PrefixWellFormed(p, k);
      assert p[..k] == log[..k];
    } else {
      assert log[..k] == log;
    }
  }

  /** At no point of a well-formed log are two transactions live at once. */
  lemma NeverTwoLive(log: seq<Event>)
    requires WellFormed(log)
    ensures forall k :: 0 <= k <= |log| ==> |Live(log[..k])| <= 1
  {
    forall k | 0 <= k <= |log|
      ensures |Live(log[..k])| <= 1
    {
      PrefixWellFormed(log, k);
      AtMostOneLive(log[..k]);
    }
  }

  /**
   * Each call of a well-formed log runs under the one live transaction (or
   * none), and each commit or abort ends the one live transaction.
   */
  lemma CallsRunUnderLiveTxn(log: seq<Event>, k: nat)
    requires WellFormed(log) && k < |log|
    ensures log[k].Did? ==> Live(log[..k]) == TxnSet(log[k].txn)
    ensures log[k].Committed? || log[k].Aborted? ==> Live(log[..k]) == {log[k].id}
    ensures log[k].Began? || log[k].BeginRefused? ==> Live(log[..k]) == {}
  {
    PrefixWellFormed(log, k + 1);
    assert log[..k + 1] == log[..k] + [log[k]];
    Extend(log[..k], log[k]);
  }
}

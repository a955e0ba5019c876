/** Locks of concurrent calls: the wait-for relation has no cycle, and whatever is in flight can finish. */
module SyncProgress {
  import opened Common
  import opened SyncModel
  import opened SyncHistory
  import opened SyncTransactions

  /** `t`'s next statement waits for a lock that `u` holds. */
  predicate WaitsFor(s: State, t: nat, u: nat) {
    && t in s.txs && u in s.txs && t != u
    && ((s.txs[t].Checked? && s.txs[u].HoldsEntry(s.txs[t].req.Id()))
        || (s.txs[t].LookedUp? && s.txs[u].HoldsSequence()))
  }

  /** Who may wait: before the entry lock, between the two locks, after both. */
  function Rank(tx: Tx): nat {
    if tx.Checked? then 2 else if tx.HoldsSequence() then 0 else 1
  }

  /** Entry lock before sequence lock: waiting always goes down the ranks, so no cycle of waiting
      transactions exists in any state at all. */
  lemma WaitingGoesDown(s: State, t: nat, u: nat)
    requires WaitsFor(s, t, u)
    ensures Rank(s.txs[u]) < Rank(s.txs[t])
  {
  }

  /** A chain of transactions each waiting for the next. */
  predicate WaitChain(s: State, path: seq<nat>) {
    && (forall t <- path :: t in s.txs)
    && forall i | 0 <= i < |path| - 1 :: WaitsFor(s, path[i], path[i + 1])
  }

  lemma {:induction false} ChainsAreShort(s: State, path: seq<nat>)
    requires WaitChain(s, path) && |path| >= 2
    ensures Rank(s.txs[path[0]]) >= |path| - 1 + Rank(s.txs[path[|path| - 1]])
    decreases |path|
  {
    WaitingGoesDown(s, path[0], path[1]);
    if |path| > 2 {
      var rest := path[1..];
      forall i | 0 <= i < |rest| - 1 ensures WaitsFor(s, rest[i], rest[i + 1]) {
        assert rest[i] == path[i + 1] && rest[i + 1] == path[i + 2];
      }
      ChainsAreShort(s, rest);
    }
  }

  /** No deadlock: at most three transactions ever wait in line, and never in a circle. */
  lemma NoDeadlock(s: State, path: seq<nat>)
    requires WaitChain(s, path) && |path| >= 2
    ensures |path| <= 3 && path[0] != path[|path| - 1]
  {
    ChainsAreShort(s, path);
  }

  // ---------- finishing ----------

  /** Pick a transaction of least rank: it waits for nobody. */
  lemma {:induction false} SomeoneIsFree(s: State, ts: set<nat>) returns (t: nat)
    requires ts != {} && ts <= s.txs.Keys
    ensures t in ts && forall u <- ts :: Rank(s.txs[t]) <= Rank(s.txs[u])
    decreases |ts|
  {
    var first :| first in ts;
    var rest := ts - {first};
    t := first;
    if rest != {} {
      var u := SomeoneIsFree(s, rest);
      if Rank(s.txs[u]) < Rank(s.txs[first]) {
        t := u;
      }
    }
    forall w <- ts ensures Rank(s.txs[t]) <= Rank(s.txs[w]) {
      assert w == first || w in rest;
    }
  }

  /** The statements left to a transaction that nobody blocks. */
  function Remaining(s: State, t: nat): seq<Step>
    requires t in s.txs
  {
    match s.txs[t]
    case Checked(req, seen) =>
      if (seen.None? <==> req.CreateEntry?) && WriteEntry(s.db.entries, req, seen).Row?
      then [Write(t), Lookup(t), Reserve(t), Insert(t), Commit(t)]
      else [Abort(t)]
    case Written(_, _, _) => [Lookup(t), Reserve(t), Insert(t), Commit(t)]
    case LookedUp(_, _, _) => [Reserve(t), Insert(t), Commit(t)]
    case AnsweredByReplay(_, _, _, _) => [Commit(t)]
    case Reserved(_, _, _, _) => [Insert(t), Commit(t)]
    case Inserted(_, _, _, _) => [Commit(t)]
  }

  predicate LeastRank(s: State, t: nat) {
    t in s.txs && forall u <- s.txs :: Rank(s.txs[t]) <= Rank(s.txs[u])
  }

  lemma {:induction false} SchedulesCompose(s: State, a: seq<Step>, b: seq<Step>)
    requires Schedule(s, a) && DistinctSchedule(s, a)
    requires Schedule(After(s, a), b) && DistinctSchedule(After(s, a), b)
    ensures Schedule(s, a + b) && DistinctSchedule(s, a + b)
    ensures After(s, a + b) == After(After(s, a), b)
    decreases |a|
  {
    if a == [] {
      assert a + b == b;
    } else {
      assert (a + b)[1..] == a[1..] + b;
      SchedulesCompose(Next(s, a[0]), a[1..], b);
    }
  }

  /** Running `steps` takes `t` out of flight and touches no other transaction. */
  predicate Finishes(s: State, t: nat, steps: seq<Step>) {
    && Schedule(s, steps)
    && DistinctSchedule(s, steps)
    && After(s, steps).txs == s.txs - {t}
  }

  lemma FinishesAtOnce(s: State, t: nat, step: Step)
    requires Enabled(s, step) && Distinct(s, step) && Next(s, step).txs == s.txs - {t}
    ensures Finishes(s, t, [step])
  {
  }

  lemma FinishesAfter(s: State, t: nat, step: Step, rest: seq<Step>)
    requires Enabled(s, step) && Distinct(s, step) && Next(s, step).txs - {t} == s.txs - {t}
    requires Finishes(Next(s, step), t, rest)
    ensures Finishes(s, t, [step] + rest)
  {
  }

  /** `t`'s key is not recorded and nobody else holds the sequence row. */
  predicate Unhindered(s: State, t: nat) {
    t in s.txs && SequenceFree(s, t) && Unused(s.db.log, s.txs[t].req.clientEventId)
  }

  lemma ReservedFinishes(s: State, t: nat)
    requires Unhindered(s, t) && s.txs[t].Reserved?
    ensures Finishes(s, t, [Insert(t), Commit(t)])
  {
    var step := Insert(t);
    FinishesAtOnce(Next(s, step), t, Commit(t));
    FinishesAfter(s, t, step, [Commit(t)]);
    assert [step] + [Commit(t)] == [Insert(t), Commit(t)];
  }

  lemma LookedUpFinishes(s: State, t: nat)
    requires Unhindered(s, t) && s.txs[t].LookedUp?
    ensures Finishes(s, t, [Reserve(t), Insert(t), Commit(t)])
  {
    var step := Reserve(t);
    ReservedFinishes(Next(s, step), t);
    FinishesAfter(s, t, step, [Insert(t), Commit(t)]);
    assert [step] + [Insert(t), Commit(t)] == [Reserve(t), Insert(t), Commit(t)];
  }

  lemma WrittenFinishes(s: State, t: nat)
    requires Unhindered(s, t) && s.txs[t].Written?
    ensures Finishes(s, t, [Lookup(t), Reserve(t), Insert(t), Commit(t)])
  {
    var step := Lookup(t);
    assert FindByClientId(s.db.log, s.txs[t].req.clientEventId).None?;
    LookedUpFinishes(Next(s, step), t);
    FinishesAfter(s, t, step, [Reserve(t), Insert(t), Commit(t)]);
    assert [step] + [Reserve(t), Insert(t), Commit(t)] == [Lookup(t), Reserve(t), Insert(t), Commit(t)];
  }

  lemma CheckedFinishes(s: State, t: nat)
    requires Unhindered(s, t) && s.txs[t].Checked? && EntryFree(s, t, s.txs[t].req.Id())
    ensures Finishes(s, t, Remaining(s, t))
  {
    if Remaining(s, t) == [Abort(t)] {
      FinishesAtOnce(s, t, Abort(t));
    } else {
      var step := Write(t);
      WrittenFinishes(Next(s, step), t);
      FinishesAfter(s, t, step, [Lookup(t), Reserve(t), Insert(t), Commit(t)]);
      assert [step] + [Lookup(t), Reserve(t), Insert(t), Commit(t)] == Remaining(s, t);
    }
  }

  /** A transaction of least rank can run to its end without waiting; only an entry statement that
      fails makes it abort. */
  lemma LeastRankFinishes(s: State, t: nat)
    requires Inv(s) && LeastRank(s, t)
    ensures Finishes(s, t, Remaining(s, t))
  {
    match s.txs[t]
    case Checked(_, _) => CheckedFinishes(s, t);
    case Written(_, _, _) => WrittenFinishes(s, t);
    case LookedUp(_, _, _) => LookedUpFinishes(s, t);
    case Reserved(_, _, _, _) => ReservedFinishes(s, t);
    case Inserted(_, _, _, _) => FinishesAtOnce(s, t, Commit(t));
  }

  lemma SomeoneFinishes(s: State) returns (steps: seq<Step>)
    requires Inv(s) && s.txs != map[]
    ensures Schedule(s, steps) && DistinctSchedule(s, steps) && |steps| <= 5
    ensures Inv(After(s, steps)) && |After(s, steps).txs| == |s.txs| - 1
  {
    assert s.txs.Keys != {};
    var t := SomeoneIsFree(s, s.txs.Keys);
    LeastRankFinishes(s, t);
    steps := Remaining(s, t);
    DistinctRunsKeepInv(s, steps);
    assert (s.txs - {t}).Keys == s.txs.Keys - {t};
  }

  /** From every reachable state all calls in flight can finish, one after the other, each within five
      statements and without any new call starting. */
  lemma {:induction false} EveryoneFinishes(s: State) returns (steps: seq<Step>)
    requires Inv(s)
    ensures Schedule(s, steps) && DistinctSchedule(s, steps)
    ensures After(s, steps).txs == map[]
    ensures |steps| <= 5 * |s.txs|
    decreases |s.txs|
  {
    if s.txs == map[] {
      steps := [];
    } else {
      var first := SomeoneFinishes(s);
      var s' := After(s, first);
      var rest := EveryoneFinishes(s');
      SchedulesCompose(s, first, rest);
      steps := first + rest;
    }
  }
}

/** Numbers handed out on both paths. A knowledge transaction keeps the sequence row locked from taking its number until
    its event is committed. An envelope recorded outside a transaction takes its number in a transaction of its own and
    inserts the event in a later one, if that succeeds. `SyncTransactions` treats such an envelope as one step; here it
    is two. */
module SyncLateNumbers {
  import opened Common
  import opened SyncModel
  import opened SyncPaging

  /** `log` is every event ever committed, in commit order; `holder` the number of the transaction that has locked the
      sequence row; `pending` the numbers taken by envelopes not yet inserted, `lost` those whose insert failed. */
  datatype State = State(next: nat, log: seq<Event>, holder: Option<nat>, pending: set<nat>, lost: set<nat>)

  const INIT := State(1, [], None, {}, {})

  datatype Step =
    | TxReserve
    | TxCommit(e: Event)
    | TxAbort
    | Reserve
    | Insert(e: Event)
    | Lose(n: nat)

  predicate Enabled(s: State, step: Step) {
    match step
    case TxReserve => s.holder.None?
    case TxCommit(e) => s.holder == Some(e.sequence) && e.objectType == OBJECT_KNOWLEDGE
    case TxAbort => s.holder.Some?
    case Reserve => s.holder.None?
    case Insert(e) => e.sequence in s.pending && e.objectType != OBJECT_KNOWLEDGE
    case Lose(n) => n in s.pending
  }

  function Next(s: State, step: Step): State {
    match step
    case TxReserve => s.(holder := Some(s.next))
    case TxCommit(e) => s.(holder := None, next := e.sequence + 1, log := s.log + [e])
    case TxAbort => s.(holder := None)
    case Reserve => s.(next := s.next + 1, pending := s.pending + {s.next})
    case Insert(e) => s.(log := s.log + [e], pending := s.pending - {e.sequence})
    case Lose(n) => s.(pending := s.pending - {n}, lost := s.lost + {n})
  }

  function NumbersOf(log: seq<Event>): set<nat> {
    set e | e in log :: e.sequence
  }

  function Taken(s: State): set<nat> {
    NumbersOf(s.log) + s.pending + s.lost
  }

  /** Every number below the next one is in the log, pending or lost, and only in one place; no number is used twice. */
  ghost predicate Inv(s: State) {
    && s.next > 0
    && (s.holder.Some? ==> s.holder.value == s.next)
    && NumbersDiffer(s.log)
    && NumbersOf(s.log) !! s.pending && NumbersOf(s.log) !! s.lost && s.pending !! s.lost
    && forall n :: n in Taken(s) <==> 0 < n < s.next
  }

  lemma AppendedNumbers(log: seq<Event>, e: Event)
    ensures NumbersOf(log + [e]) == NumbersOf(log) + {e.sequence}
    ensures NumbersDiffer(log) && e.sequence !in NumbersOf(log) ==> NumbersDiffer(log + [e])
  {
    assert (log + [e])[..|log|] == log;
    assert forall x :: x in log + [e] <==> x in log || x == e;
    assert forall x | x in log :: x.sequence in NumbersOf(log);
  }

  lemma StepKeepsInv(s: State, step: Step)
    requires Inv(s) && Enabled(s, step)
    ensures Inv(Next(s, step))
  {
    assert s.next !in Taken(s);
    if step.TxCommit? || step.Insert? {
      AppendedNumbers(s.log, step.e);
    }
    match step
    case Reserve => assert Taken(Next(s, step)) == Taken(s) + {s.next};
    case TxCommit(e) => assert Taken(Next(s, step)) == Taken(s) + {s.next};
    case Insert(e) =>
      assert e.sequence in Taken(s);
      assert Taken(Next(s, step)) == Taken(s);
    case Lose(n) => assert Taken(Next(s, step)) == Taken(s);
    case _ =>
  }

  predicate Schedule(s: State, steps: seq<Step>)
    decreases |steps|
  {
    steps != [] ==> Enabled(s, steps[0]) && Schedule(Next(s, steps[0]), steps[1..])
  }

  function After(s: State, steps: seq<Step>): State
    decreases |steps|
  {
    if steps == [] then s else After(Next(s, steps[0]), steps[1..])
  }

  /** What was not there yet: a number from the counter on, or one that an envelope had taken before. */
  predicate Late(s: State, e: Event) {
    e !in s.log && e.sequence < s.next
  }

  lemma {:induction false} RunsKeepInv(s: State, steps: seq<Step>)
    requires Inv(s) && Schedule(s, steps)
    ensures var s' := After(s, steps);
            && Inv(s') && s.log <= s'.log && s.next <= s'.next
            && forall n | n in s'.pending && n < s.next :: n in s.pending
    decreases |steps|
  {
    if steps != [] {
      StepKeepsInv(s, steps[0]);
      RunsKeepInv(Next(s, steps[0]), steps[1..]);
    }
  }

  /** The holes below the counter are exactly the numbers of envelopes still under way or lost. */
  lemma HolesIff(steps: seq<Step>, n: nat)
    requires Schedule(INIT, steps) && 0 < n < After(INIT, steps).next
    ensures var s := After(INIT, steps);
            (forall e | e in s.log :: e.sequence != n) <==> n in s.pending || n in s.lost
  {
    RunsKeepInv(INIT, steps);
    var s := After(INIT, steps);
    assert n in Taken(s);
    if n in NumbersOf(s.log) {
      var e :| e in s.log && e.sequence == n;
    }
  }

  /** Whatever appears late was pending, and is never a knowledge event. */
  lemma {:induction false} LateWasPending(s: State, steps: seq<Step>, e: Event)
    requires Inv(s) && Schedule(s, steps)
    requires e in After(s, steps).log && Late(s, e)
    ensures e.sequence in s.pending && e.objectType != OBJECT_KNOWLEDGE
    decreases |steps|
  {
    if steps != [] {
      var s1 := Next(s, steps[0]);
      StepKeepsInv(s, steps[0]);
      if e !in s1.log {
        LateWasPending(s1, steps[1..], e);
      }
    }
  }

  /** A number can appear late exactly while an envelope that has taken it is under way. */
  lemma CanAppearLateIff(s: State, n: nat)
    requires Inv(s) && n < s.next
    ensures (exists steps, e :: Schedule(s, steps) && e in After(s, steps).log && e.sequence == n && Late(s, e))
       <==> n in s.pending
  {
    if n in s.pending {
      var e := Event(n, "message", "", "created", "", "", OtherPayload(""), 0);
      var steps := [Insert(e)];
      assert steps[1..] == [];
      assert After(s, steps).log == s.log + [e];
      assert e !in s.log by {
        assert e in s.log ==> e.sequence in NumbersOf(s.log);
      }
      assert Schedule(s, steps) && e in After(s, steps).log;
    }
    if steps, e :| Schedule(s, steps) && e in After(s, steps).log && e.sequence == n && Late(s, e) {
      LateWasPending(s, steps, e);
    }
  }

  /** From here on nothing numbered below the counter will appear. */
  ghost predicate PrefixIsStable(s: State) {
    forall steps, e | Schedule(s, steps) && e in After(s, steps).log :: !Late(s, e)
  }

  /** Prefix stability on both paths: a reader has seen all there will ever be below the counter exactly when no
      envelope is between its two transactions. */
  lemma PrefixIsStableIff(s: State)
    requires Inv(s)
    ensures PrefixIsStable(s) <==> s.pending == {}
  {
    if s.pending == {} {
      forall steps, e | Schedule(s, steps) && e in After(s, steps).log
        ensures !Late(s, e)
      {
        if Late(s, e) {
          LateWasPending(s, steps, e);
        }
      }
    } else {
      var n :| n in s.pending;
      assert n in Taken(s);
      CanAppearLateIff(s, n);
    }
  }

  /** A device whose cursor had passed the late number never pulls its event. */
  lemma LateEventIsPassedOver(s: State, steps: seq<Step>, e: Event, cursor: nat, page: nat)
    requires Inv(s) && Schedule(s, steps) && e in After(s, steps).log && Late(s, e) && e.sequence <= cursor
    ensures e !in Take(Since(BySequence(After(s, steps).log), cursor), page)
  {
    SinceIsAbove(BySequence(After(s, steps).log), cursor);
  }

  lemma {:induction false} SinceIsAbove(log: seq<Event>, n: nat)
    ensures forall e | e in Since(log, n) :: e.sequence > n
  {
    if log != [] {
      SinceIsAbove(log[1..], n);
    }
  }
}

/** Concurrent service calls of one user, statement by statement. A call first reads (`Begin`), then runs
    a transaction: entry statement (row lock), idempotency lookup, sequence row (lock), event insert,
    commit or abort. Row locks are held from the statement that takes them until commit or abort. */
module SyncTransactions {
  import opened Common
  import opened SyncModel
  import opened SyncHistory

  datatype Tx =
    | Checked(req: Request, seen: Option<Entry>)
    | Written(req: Request, row: Entry, dirty: bool)
    | LookedUp(req: Request, row: Entry, dirty: bool)
    | AnsweredByReplay(req: Request, row: Entry, dirty: bool, event: Event)
    | Reserved(req: Request, row: Entry, dirty: bool, sequence: nat)
    | Inserted(req: Request, row: Entry, dirty: bool, event: Event)
  {
    /** Holds the row lock of an entry: its statement changed (or created) the row. */
    predicate HoldsEntry(id: string) { !Checked? && dirty && req.Id() == id }

    predicate HoldsSequence() { Reserved? || Inserted? }
  }

  /** `history` is every event ever committed; `db.log` is what cleanup has left of it. */
  datatype State = State(db: Db, now: nat, txs: map<nat, Tx>, history: seq<Event>)

  const INIT := State(EMPTY_DB, 0, map[], [])

  datatype Step =
    | Begin(t: nat, req: Request)
    | Write(t: nat)
    | Lookup(t: nat)
    | Reserve(t: nat)
    | Insert(t: nat)
    | Commit(t: nat)
    | Abort(t: nat)
    | Other(env: Envelope)
    | Cleanup(cutoff: nat)
    | Tick(later: nat)

  predicate EntryFree(s: State, t: nat, id: string) {
    forall u <- s.txs :: u != t ==> !s.txs[u].HoldsEntry(id)
  }

  predicate SequenceFree(s: State, t: nat) {
    forall u <- s.txs :: u != t ==> !s.txs[u].HoldsSequence()
  }

  predicate Enabled(s: State, step: Step) {
    match step
    case Begin(t, req) => t !in s.txs && Precheck(s.db, req).Proceed?
    case Write(t) =>
      && t in s.txs && s.txs[t].Checked?
      && EntryFree(s, t, s.txs[t].req.Id())
      && (s.txs[t].seen.None? <==> s.txs[t].req.CreateEntry?)
      && WriteEntry(s.db.entries, s.txs[t].req, s.txs[t].seen).Row?
    case Lookup(t) =>
      && t in s.txs && s.txs[t].Written?
      && var found := FindByClientId(s.db.log, s.txs[t].req.clientEventId);
         found.Some? ==> SameRequest(found.value, s.txs[t].req.ToEnvelope(s.txs[t].row))
    case Reserve(t) => t in s.txs && s.txs[t].LookedUp? && SequenceFree(s, t)
    case Insert(t) =>
      // the unique index on (user, client_event_id) refuses a second row
      t in s.txs && s.txs[t].Reserved? && FindByClientId(s.db.log, s.txs[t].req.clientEventId).None?
    case Commit(t) => t in s.txs && (s.txs[t].Inserted? || s.txs[t].AnsweredByReplay?)
    case Abort(t) => t in s.txs
    case Other(env) =>
      // an envelope of another object family, recorded outside these transactions, in one step
      env.objectType != OBJECT_KNOWLEDGE && env.payload.OtherPayload?
      && (forall u <- s.txs :: !s.txs[u].HoldsSequence())
      && Record(s.db, env, s.now).1.Recorded?
    case Cleanup(_) => true
    case Tick(later) => s.now <= later
  }

  function Next(s: State, step: Step): State
    requires Enabled(s, step)
  {
    match step
    case Begin(t, req) => s.(txs := s.txs[t := Checked(req, Precheck(s.db, req).seen)])
    case Write(t) =>
      var w := WriteEntry(s.db.entries, s.txs[t].req, s.txs[t].seen);
      s.(txs := s.txs[t := Written(s.txs[t].req, w.row, w.dirty)])
    case Lookup(t) =>
      var tx := s.txs[t];
      (match FindByClientId(s.db.log, tx.req.clientEventId)
       case None => s.(txs := s.txs[t := LookedUp(tx.req, tx.row, tx.dirty)])
       case Some(e) => s.(txs := s.txs[t := AnsweredByReplay(tx.req, tx.row, tx.dirty, e)]))
    case Reserve(t) =>
      var tx := s.txs[t];
      s.(txs := s.txs[t := Reserved(tx.req, tx.row, tx.dirty, s.db.next)])
    case Insert(t) =>
      var tx := s.txs[t];
      s.(txs := s.txs[t := Inserted(tx.req, tx.row, tx.dirty, NewEvent(tx.req.ToEnvelope(tx.row), tx.sequence, s.now))])
    case Commit(t) =>
      var tx := s.txs[t];
      var entries := if tx.dirty then s.db.entries[tx.req.Id() := tx.row] else s.db.entries;
      if tx.AnsweredByReplay? then s.(db := s.db.(entries := entries), txs := s.txs - {t})
      else s.(db := Db(entries, s.db.log + [tx.event], tx.event.sequence + 1),
              txs := s.txs - {t},
              history := s.history + [tx.event])
    case Abort(t) => s.(txs := s.txs - {t})
    case Other(env) =>
      var (db', out) := Record(s.db, env, s.now);
      s.(db := db', history := s.history + [out.event])
    case Cleanup(cutoff) => s.(db := s.db.(log := Keep(s.db.log, cutoff)))
    case Tick(later) => s.(now := later)
  }

  // ---------- numbers and retention: every schedule ----------

  predicate InTimeOrder(h: seq<Event>) {
    forall i, j | 0 <= i <= j < |h| :: h[i].timestamp <= h[j].timestamp
  }

  /** No event of `h` is younger than `time`. */
  predicate Before(h: seq<Event>, time: nat) {
    h != [] ==> h[|h| - 1].timestamp <= time
  }

  /** Committed numbers are exactly 1 .. next - 1 in commit order, stamped by a clock that never goes
      back, and the retained log is a suffix. */
  predicate HistoryNumbered(s: State) {
    && s.db.next == |s.history| + 1
    && NumberedFromOne(s.history)
    && InTimeOrder(s.history)
    && Before(s.history, s.now)
    && |s.db.log| <= |s.history|
    && s.db.log == s.history[Removed(s)..]
  }

  /** At most one transaction holds the sequence row, and the number it holds is the next one. */
  predicate SequenceOwned(s: State) {
    && (forall t <- s.txs :: s.txs[t].HoldsSequence() ==> SequenceFree(s, t))
    && (forall t <- s.txs :: s.txs[t].Reserved? ==> s.txs[t].sequence == s.db.next)
    && (forall t <- s.txs :: s.txs[t].Inserted? ==>
          && s.txs[t].event.sequence == s.db.next
          && s.txs[t].event.timestamp <= s.now
          && Before(s.history, s.txs[t].event.timestamp))
  }

  predicate Numbered(s: State) {
    HistoryNumbered(s) && SequenceOwned(s)
  }

  /** How many of the oldest events cleanup has removed. */
  function Removed(s: State): nat {
    if |s.db.log| <= |s.history| then |s.history| - |s.db.log| else 0
  }

  /** Cleanup of a log in time order removes a prefix: exactly the events older than the cutoff. */
  lemma {:induction false} KeepIsSuffix(log: seq<Event>, cutoff: nat)
    requires InTimeOrder(log)
    ensures |Keep(log, cutoff)| <= |log|
    ensures Keep(log, cutoff) == log[|log| - |Keep(log, cutoff)|..]
    ensures forall i | 0 <= i < |log| :: log[i].timestamp < cutoff <==> i < |log| - |Keep(log, cutoff)|
    decreases |log|
  {
    if log != [] {
      KeepIsSuffix(log[1..], cutoff);
      var kept := Keep(log[1..], cutoff);
      assert forall i | 1 <= i < |log| :: log[i] == log[1..][i - 1];
      if log[0].timestamp >= cutoff {
        assert forall i | 0 <= i < |log[1..]| :: log[1..][i] == log[i + 1];
        assert kept == log[1..];
        assert [log[0]] + log[1..] == log;
      }
    }
  }

  lemma AppendKeepsHistory(s: State, s': State, e: Event)
    requires HistoryNumbered(s)
    requires e.sequence == s.db.next && e.timestamp <= s.now && Before(s.history, e.timestamp)
    requires s'.db.next == s.db.next + 1 && s'.db.log == s.db.log + [e]
    requires s'.history == s.history + [e] && s'.now == s.now
    ensures HistoryNumbered(s') && Removed(s') == Removed(s)
  {
    assert s'.db.log == s'.history[Removed(s')..];
  }

  lemma SuffixKeep(h: seq<Event>, r: nat, cutoff: nat)
    requires InTimeOrder(h) && r <= |h|
    ensures var k := Keep(h[r..], cutoff);
            && |k| <= |h| - r
            && k == h[|h| - |k|..]
            && forall i | r <= i < |h| :: h[i].timestamp < cutoff <==> i < |h| - |k|
  {
    var log := h[r..];
    KeepIsSuffix(log, cutoff);
    var k := Keep(log, cutoff);
    assert h[|h| - |k|..] == log[|log| - |k|..];
    forall i | r <= i < |h|
      ensures h[i].timestamp < cutoff <==> i < |h| - |k|
    {
      assert h[i] == log[i - r];
    }
  }

  /** Cleanup removes from the oldest end exactly the events stamped before the cutoff. */
  lemma CleanupRemovesPrefix(s: State, cutoff: nat)
    requires HistoryNumbered(s)
    ensures var s' := Next(s, Cleanup(cutoff));
            && HistoryNumbered(s')
            && Removed(s') >= Removed(s)
            && forall i | Removed(s) <= i < |s.history| :: s.history[i].timestamp < cutoff <==> i < Removed(s')
  {
    SuffixKeep(s.history, Removed(s), cutoff);
    var s' := Next(s, Cleanup(cutoff));
    assert s'.db.log == Keep(s.db.log, cutoff) && s'.history == s.history && s'.now == s.now;
    assert Removed(s') == |s.history| - |Keep(s.db.log, cutoff)|;
  }

  lemma StepKeepsHistory(s: State, step: Step)
    requires Numbered(s) && Enabled(s, step)
    ensures HistoryNumbered(Next(s, step))
    ensures s.history <= Next(s, step).history
    ensures s.now <= Next(s, step).now
    ensures Removed(s) <= Removed(Next(s, step))
  {
    match step
    case Commit(t) =>
      if s.txs[t].Inserted? {
        AppendKeepsHistory(s, Next(s, step), s.txs[t].event);
      }
    case Other(env) =>
      AppendKeepsHistory(s, Next(s, step), Record(s.db, env, s.now).1.event);
    case Cleanup(cutoff) =>
      CleanupRemovesPrefix(s, cutoff);
    case _ =>
  }

  /** One transaction moves on; what it holds of the sequence row, it holds by the next number. */
  lemma MoveKeepsOwnership(s: State, t: nat, tx: Tx)
    requires Numbered(s)
    requires tx.HoldsSequence() ==> SequenceFree(s, t)
    requires tx.Reserved? ==> tx.sequence == s.db.next
    requires tx.Inserted? ==> tx.event.sequence == s.db.next && tx.event.timestamp == s.now
    ensures SequenceOwned(s.(txs := s.txs[t := tx]))
  {
  }

  lemma StepKeepsOwnership(s: State, step: Step)
    requires Numbered(s) && Enabled(s, step)
    ensures SequenceOwned(Next(s, step))
  {
    match step
    case Begin(t, _) => MoveKeepsOwnership(s, t, Next(s, step).txs[t]);
    case Write(t) => MoveKeepsOwnership(s, t, Next(s, step).txs[t]);
    case Lookup(t) => MoveKeepsOwnership(s, t, Next(s, step).txs[t]);
    case Reserve(t) => MoveKeepsOwnership(s, t, Next(s, step).txs[t]);
    case Insert(t) => MoveKeepsOwnership(s, t, Next(s, step).txs[t]);
    case _ =>
  }

  /** Every step of every schedule keeps the numbering; what was committed stays committed, in place. */
  lemma StepKeepsNumbered(s: State, step: Step)
    requires Numbered(s) && Enabled(s, step)
    ensures Numbered(Next(s, step))
    ensures s.history <= Next(s, step).history
    ensures s.now <= Next(s, step).now
    ensures Removed(s) <= Removed(Next(s, step))
  {
    StepKeepsHistory(s, step);
    StepKeepsOwnership(s, step);
  }

  // ---------- idempotency keys: every schedule ----------

  predicate Unused(log: seq<Event>, key: string) {
    key == "" || forall e <- log :: e.clientEventId != key
  }

  predicate KeysDiffer(log: seq<Event>) {
    forall i, j | 0 <= i < j < |log| :: log[i].clientEventId == "" || log[i].clientEventId != log[j].clientEventId
  }

  /** No two retained events carry the same non-empty client event id. */
  predicate KeysOnce(s: State) {
    && KeysDiffer(s.db.log)
    && forall t <- s.txs :: s.txs[t].Inserted? ==> Unused(s.db.log, s.txs[t].event.clientEventId)
  }

  lemma {:induction false} KeepKeepsKeys(log: seq<Event>, cutoff: nat, key: string)
    requires KeysDiffer(log)
    ensures KeysDiffer(Keep(log, cutoff))
    ensures Unused(log, key) ==> Unused(Keep(log, cutoff), key)
  {
    if log != [] {
      var rest := log[1..];
      assert forall i | 0 <= i < |rest| :: rest[i] == log[i + 1];
      KeepKeepsKeys(rest, cutoff, key);
      KeepKeepsKeys(rest, cutoff, log[0].clientEventId);
    }
  }

  lemma StepKeepsKeysOnce(s: State, step: Step)
    requires Numbered(s) && KeysOnce(s) && Enabled(s, step)
    ensures KeysOnce(Next(s, step))
  {
    var s' := Next(s, step);
    match step
    case Cleanup(cutoff) =>
      KeepKeepsKeys(s.db.log, cutoff, "");
      forall t <- s'.txs | s'.txs[t].Inserted? ensures Unused(s'.db.log, s'.txs[t].event.clientEventId) {
        KeepKeepsKeys(s.db.log, cutoff, s'.txs[t].event.clientEventId);
      }
    case _ =>
  }

  // ---------- agreement of table and log: schedules without shared keys in flight ----------

  /** The entry table is what the committed history produces. */
  predicate Agreement(s: State) {
    Chain(s.history) && s.db.entries == TableOf(s.history)
  }

  /** What a transaction has in hand fits the committed rows. */
  predicate Fits(entries: Table, tx: Tx) {
    var id := tx.req.Id();
    && id != ""
    && (tx.Checked? ==> (tx.seen.None? <==> tx.req.CreateEntry?))
    && (!tx.Checked? && tx.dirty ==>
          && tx.row.id == id
          && (if id in entries then entries[id].status == Active && tx.row.version == entries[id].version + 1
              else tx.row.status == Active && tx.row.version == 1))
    && (!tx.Checked? && !tx.dirty ==> id in entries && entries[id].status == Deleted && tx.row == entries[id])
    && (tx.Inserted? ==> tx.event == NewEvent(tx.req.ToEnvelope(tx.row), tx.event.sequence, tx.event.timestamp))
  }

  predicate RowsOwned(s: State) {
    forall t <- s.txs :: !s.txs[t].Checked? && s.txs[t].dirty ==> EntryFree(s, t, s.txs[t].req.Id())
  }

  /** No in-flight request's client event id is already recorded, and no two share one. */
  predicate KeysFree(s: State) {
    && (forall t <- s.txs :: Unused(s.db.log, s.txs[t].req.clientEventId) && !s.txs[t].AnsweredByReplay?)
    && (forall t, u | t in s.txs && u in s.txs && t != u ::
          s.txs[t].req.clientEventId == "" || s.txs[t].req.clientEventId != s.txs[u].req.clientEventId)
  }

  /** The step starts no request, and records no envelope, whose client event id is in flight already. */
  predicate Distinct(s: State, step: Step) {
    match step
    case Begin(t, req) =>
      req.clientEventId == "" || forall u <- s.txs :: s.txs[u].req.clientEventId != req.clientEventId
    case Other(env) => env.clientEventId == "" || forall u <- s.txs :: s.txs[u].req.clientEventId != env.clientEventId
    case _ => true
  }

  predicate CoreInv(s: State) {
    && Numbered(s)
    && KeysOnce(s)
    && Agreement(s)
    && RowsOwned(s)
    && AllFit(s.db.entries, s.txs)
  }

  predicate Inv(s: State) {
    CoreInv(s) && KeysFree(s)
  }

  /** The commit of a transaction that changed its row and whose idempotency lookup, made after the
      change, found the event of another request with the same key: a row changes without an event. */
  predicate SilentCommit(s: State, step: Step) {
    step.Commit? && step.t in s.txs && s.txs[step.t].AnsweredByReplay? && s.txs[step.t].dirty
  }

  lemma InitInv()
    ensures Inv(INIT)
  {
  }

  lemma AppendKeepsKeysFree(s: State, s': State, e: Event)
    requires KeysFree(s)
    requires s'.db.log == s.db.log + [e]
    requires forall t <- s'.txs :: t in s.txs && s'.txs[t] == s.txs[t]
    requires e.clientEventId == "" || forall t <- s'.txs :: s'.txs[t].req.clientEventId != e.clientEventId
    ensures KeysFree(s')
  {
  }

  lemma StepKeepsKeysFree(s: State, step: Step)
    requires KeysDiffer(s.db.log) && KeysFree(s) && AllFit(s.db.entries, s.txs)
    requires Enabled(s, step) && Distinct(s, step)
    ensures KeysFree(Next(s, step))
  {
    var s' := Next(s, step);
    match step
    case Cleanup(cutoff) =>
      forall t <- s'.txs ensures Unused(s'.db.log, s'.txs[t].req.clientEventId) {
        KeepKeepsKeys(s.db.log, cutoff, s'.txs[t].req.clientEventId);
      }
    case Commit(t) =>
      assert Fits(s.db.entries, s.txs[t]);
      AppendKeepsKeysFree(s, s', s.txs[t].event);
    case Other(env) =>
      AppendKeepsKeysFree(s, s', Record(s.db, env, s.now).1.event);
    case _ =>
  }

  lemma StepKeepsRowsOwned(s: State, step: Step)
    requires RowsOwned(s) && Enabled(s, step)
    ensures RowsOwned(Next(s, step))
  {
  }

  predicate AllFit(entries: Table, txs: map<nat, Tx>) {
    forall t <- txs :: Fits(entries, txs[t])
  }

  lemma WriteFits(s: State, t: nat)
    requires Agreement(s) && AllFit(s.db.entries, s.txs) && Enabled(s, Write(t))
    ensures Fits(s.db.entries, Next(s, Write(t)).txs[t])
  {
    TableIsKeyed(s.history);
  }

  lemma CommitLeavesOthersFitting(s: State, t: nat)
    requires AllFit(s.db.entries, s.txs) && RowsOwned(s) && Enabled(s, Commit(t))
    ensures AllFit(Next(s, Commit(t)).db.entries, Next(s, Commit(t)).txs)
  {
    var s' := Next(s, Commit(t));
    assert Fits(s.db.entries, s.txs[t]);
    forall u <- s'.txs ensures Fits(s'.db.entries, s'.txs[u]) {
      assert u != t && s'.txs[u] == s.txs[u] && Fits(s.db.entries, s.txs[u]);
    }
  }

  lemma StepKeepsFits(s: State, step: Step)
    requires Agreement(s) && RowsOwned(s) && AllFit(s.db.entries, s.txs) && Enabled(s, step)
    ensures AllFit(Next(s, step).db.entries, Next(s, step).txs)
  {
    match step
    case Write(t) => WriteFits(s, t);
    case Commit(t) => CommitLeavesOthersFitting(s, t);
    case Begin(t, req) =>
    case _ =>
      var s' := Next(s, step);
      assert s'.db.entries == s.db.entries;
      forall t <- s'.txs ensures Fits(s'.db.entries, s'.txs[t]) {
        assert t in s.txs && Fits(s.db.entries, s.txs[t]);
      }
  }

  lemma CommitWithEvent(s: State, t: nat)
    requires Numbered(s) && Agreement(s) && Enabled(s, Commit(t)) && s.txs[t].Inserted?
    requires Fits(s.db.entries, s.txs[t])
    ensures Agreement(Next(s, Commit(t)))
  {
    TableIsKeyed(s.history);
    ChainExtends(s.history, s.txs[t].event);
  }

  lemma CommitByReplay(s: State, t: nat)
    requires Agreement(s) && Enabled(s, Commit(t)) && s.txs[t].AnsweredByReplay?
    requires Fits(s.db.entries, s.txs[t])
    ensures Agreement(Next(s, Commit(t))) <==> !s.txs[t].dirty
  {
  }

  /** Exactly when a step keeps the table in agreement with the log, whatever the schedule so far:
      every step does, except the commit of a changed row answered by a replay. */
  lemma StepAgreement(s: State, step: Step)
    requires Numbered(s) && Agreement(s) && AllFit(s.db.entries, s.txs) && Enabled(s, step)
    ensures Agreement(Next(s, step)) <==> !SilentCommit(s, step)
  {
    match step
    case Commit(t) => if s.txs[t].Inserted? { CommitWithEvent(s, t); } else { CommitByReplay(s, t); }
    case Other(env) => ChainExtends(s.history, Record(s.db, env, s.now).1.event);
    case _ =>
  }

  lemma StepKeepsCore(s: State, step: Step)
    requires CoreInv(s) && Enabled(s, step)
    ensures CoreInv(Next(s, step)) <==> !SilentCommit(s, step)
  {
    StepAgreement(s, step);
    StepKeepsNumbered(s, step);
    StepKeepsKeysOnce(s, step);
    StepKeepsRowsOwned(s, step);
    StepKeepsFits(s, step);
  }

  /** Schedules in which requests in flight together carry different keys never reach that commit. */
  lemma StepKeepsInv(s: State, step: Step)
    requires Inv(s) && Enabled(s, step) && Distinct(s, step)
    ensures Inv(Next(s, step))
  {
    StepKeepsCore(s, step);
    StepKeepsKeysFree(s, step);
  }

  // ---------- runs ----------

  /** A schedule: every step is enabled where it is taken. */
  predicate Schedule(s: State, steps: seq<Step>)
    decreases |steps|
  {
    steps != [] ==> Enabled(s, steps[0]) && Schedule(Next(s, steps[0]), steps[1..])
  }

  function After(s: State, steps: seq<Step>): State
    requires Schedule(s, steps)
    decreases |steps|
  {
    if steps == [] then s else After(Next(s, steps[0]), steps[1..])
  }

  /** A schedule in which keys in flight together are different or empty. */
  predicate DistinctSchedule(s: State, steps: seq<Step>)
    requires Schedule(s, steps)
    decreases |steps|
  {
    steps != [] ==> Distinct(s, steps[0]) && DistinctSchedule(Next(s, steps[0]), steps[1..])
  }

  lemma {:induction false} RunsKeepNumbered(s: State, steps: seq<Step>)
    requires Numbered(s) && KeysOnce(s) && Schedule(s, steps)
    ensures var s' := After(s, steps);
            && Numbered(s') && KeysOnce(s')
            && s.history <= s'.history
            && Removed(s) <= Removed(s')
    decreases |steps|
  {
    if steps != [] {
      StepKeepsNumbered(s, steps[0]);
      StepKeepsKeysOnce(s, steps[0]);
      RunsKeepNumbered(Next(s, steps[0]), steps[1..]);
    }
  }

  lemma LogIsNumbered(s: State, i: nat)
    requires HistoryNumbered(s) && i < |s.db.log|
    ensures s.db.log[i] == s.history[Removed(s) + i]
    ensures s.db.log[i].sequence == Removed(s) + 1 + i
  {
  }

  /** Prefix stability, in every schedule: numbers already given out are settled. The retained log is
      numbered without holes, up to `next`, and an event numbered below an earlier `next` that a later
      reader sees was there at the earlier moment: nothing is renumbered, no number is reused, and an
      abort leaves no hole that could be filled afterwards. */
  lemma PrefixStability(s: State, steps: seq<Step>, i: nat)
    requires Numbered(s) && KeysOnce(s) && Schedule(s, steps)
    requires i < |After(s, steps).db.log|
    ensures var s' := After(s, steps);
            && s'.db.log[i].sequence == s'.db.next - |s'.db.log| + i
            && (s'.db.log[i].sequence < s.db.next ==> s'.db.log[i] in s.db.log)
  {
    var s' := After(s, steps);
    RunsKeepNumbered(s, steps);
    LogIsNumbered(s', i);
    var k := Removed(s') + i;
    if k < |s.history| {
      assert s'.history[k] == s.history[k];
      LogIsNumbered(s, k - Removed(s));
      assert s.db.log[k - Removed(s)] in s.db.log;
    }
  }

  lemma {:induction false} DistinctRunsKeepInv(s: State, steps: seq<Step>)
    requires Inv(s) && Schedule(s, steps) && DistinctSchedule(s, steps)
    ensures Inv(After(s, steps))
    decreases |steps|
  {
    if steps != [] {
      StepKeepsInv(s, steps[0]);
      DistinctRunsKeepInv(Next(s, steps[0]), steps[1..]);
    }
  }
}

/** Uninterrupted service calls: each is one schedule of the statement-level machine, and has at most
    one effect. Overlapping retries of one keyed update are the exception, shown at the end. */
module SyncCalls {
  import opened Common
  import opened SyncModel
  import opened SyncHistory
  import opened SyncTransactions
  import opened SyncProgress

  /** A state between calls. */
  predicate Quiet(s: State) {
    Inv(s) && s.txs == map[]
  }

  predicate Complete(r: Request) {
    Trim(r.rawId) != "" && (r.DeleteEntry? || (!Blank(r.title) && !Blank(r.content)))
  }

  /** When a call is to take effect, said without the service's control flow: the input is complete, the
      key is new, and the request fits the entry as it stands. */
  predicate Acceptable(db: Db, r: Request) {
    && Complete(r)
    && Unused(db.log, r.clientEventId)
    && var id := Trim(r.rawId);
       if r.CreateEntry? then id !in db.entries
       else
         && id in db.entries
         && db.entries[id].status == Active
         && (r.base.Some? ==> r.base.value == db.entries[id].version)
  }

  /** What an accepted request makes of its entry. */
  function Effect(db: Db, r: Request): Entry
    requires r.CreateEntry? || Trim(r.rawId) in db.entries
  {
    var id := Trim(r.rawId);
    match r
    case CreateEntry(device, _, _, title, content) =>
      Entry(id, Trim(title), content, Digest(content), Active, 1, device)
    case UpdateEntry(device, _, _, title, content, _) =>
      Entry(id, Trim(title), content, Digest(content), Active, db.entries[id].version + 1, device)
    case DeleteEntry(device, _, _, _) =>
      var e := db.entries[id];
      Entry(id, e.title, e.content, Digest(e.content), Deleted, e.version + 1, device)
  }

  /** How the event of a request names what was done. */
  function Verb(r: Request): string {
    if r.CreateEntry? then "created" else if r.UpdateEntry? then "updated" else "deleted"
  }

  lemma AcceptableProceeds(db: Db, r: Request)
    ensures Precheck(db, r).Proceed? && (r.CreateEntry? ==> r.Id() !in db.entries) <==> Acceptable(db, r)
  {
  }

  function EffectEvent(db: Db, r: Request, now: nat): Event
    requires r.CreateEntry? || Trim(r.rawId) in db.entries
  {
    Event(db.next, "knowledge", Trim(r.rawId), Verb(r), r.device, r.clientEventId,
          KnowledgePayload(Effect(db, r)), now)
  }

  /** A call takes effect exactly when it is acceptable: then the entry becomes `Effect`, and one event
      with the next number, carrying that entry, is appended; replays, key conflicts, stale base
      versions, missing, existing and deleted entries leave every row and the counter alone. */
  lemma CallEffects(db: Db, r: Request, now: nat)
    requires Keyed(db.entries)
    ensures var (db', out) := Call(db, r, now);
            if Acceptable(db, r) then
              && out == Accepted(Effect(db, r), EffectEvent(db, r, now))
              && db' == Db(db.entries[Trim(r.rawId) := Effect(db, r)], db.log + [EffectEvent(db, r, now)], db.next + 1)
            else
              !out.Accepted? && db' == db
  {
    AcceptableProceeds(db, r);
    var check := Precheck(db, r);
    if check.Proceed? {
      var w := WriteEntry(db.entries, r, check.seen);
      if w.Row? {
        assert w.row == Effect(db, r);
        assert r.Operation() in SupportedOperations(OBJECT_KNOWLEDGE);
      }
    }
  }

  /** Which answer a call without effect gets when its input is incomplete or its key is new. */
  lemma CallAnswers(db: Db, r: Request, now: nat)
    requires Keyed(db.entries)
    ensures var out, id := Call(db, r, now).1, Trim(r.rawId);
            && (out == Rejected(EntryIdRequired) <==> id == "")
            && (out == Rejected(TitleRequired) <==> id != "" && !r.DeleteEntry? && Blank(r.title))
            && (out == Rejected(ContentRequired)
                <==> id != "" && !r.DeleteEntry? && !Blank(r.title) && Blank(r.content))
    ensures var out, id := Call(db, r, now).1, Trim(r.rawId);
            Complete(r) && Unused(db.log, r.clientEventId) ==>
              && (out == Rejected(EntryExists) <==> r.CreateEntry? && id in db.entries)
              && (out == Rejected(EntryNotFound) <==> !r.CreateEntry? && id !in db.entries)
              && (out == Rejected(Error.EntryDeleted)
                  <==> !r.CreateEntry? && id in db.entries && db.entries[id].status == Deleted)
              && (out == Rejected(VersionConflict)
                  <==> !r.CreateEntry? && id in db.entries && db.entries[id].status == Active
                       && r.base.Some? && r.base.value != db.entries[id].version)
  {
    CallEffects(db, r, now);
  }

  /** Which answer a call gets whose key was recorded with event `e`. */
  lemma RecordedKeyAnswers(db: Db, e: Event, r: Request, now: nat)
    requires KeysDiffer(db.log) && e in db.log && e.clientEventId == r.clientEventId != ""
    ensures var (db', out) := Call(db, r, now);
            && db' == db
            && (!Complete(r) ==> out.Rejected?)
            && (Complete(r) ==>
                  out == if e.objectType != "knowledge" || e.objectId != Trim(r.rawId) || e.operation != Verb(r)
                            || e.sourceDevice != r.device
                         then Rejected(IdempotencyConflict)
                         else if e.objectId !in db.entries then Rejected(EntryNotFound)
                         else Replayed(db.entries[e.objectId], e))
  {
    assert FindByClientId(db.log, r.clientEventId) == Some(e);
  }

  /** The families a plain operation exists for. */
  function FamiliesOf(operation: string): set<string> {
    match operation
    case "updated" =>
      {"message", "conversation", "participant", "conversation_read", "knowledge", "contact", "skill", "agent",
       "server", "plugin", "profile"}
    case "created" => {"message", "conversation", "knowledge", "contact"}
    case "deleted" => {"message", "knowledge", "contact"}
    case "reaction_added" => {"message"}
    case "reaction_removed" => {"message"}
    case "read" => {"conversation"}
    case "added" => {"participant", "message_reaction", "server", "plugin"}
    case "removed" => {"participant", "message_reaction", "server", "plugin"}
    case "enabled" => {"skill", "plugin"}
    case "disabled" => {"skill", "plugin"}
    case "installed" => {"skill", "plugin"}
    case "uninstalled" => {"skill", "plugin"}
    case "permission_granted" => {"plugin"}
    case "permission_revoked" => {"plugin"}
    case _ => {}
  }

  lemma SupportedIsListed(family: string, operation: string)
    requires operation in SupportedOperations(family)
    ensures family in FamiliesOf(operation)
  {
  }

  lemma ListedIsSupported(family: string, operation: string)
    requires family in FamiliesOf(operation)
    ensures operation in SupportedOperations(family)
  {
  }

  /** What becomes of an envelope: unsupported, answered with the event its key was recorded with, refused because
      that event is of another request, or recorded under the next number as it came. */
  lemma RecordAnswers(db: Db, env: Envelope, now: nat)
    requires KeysDiffer(db.log)
    ensures var (db', out) := Record(db, env, now);
            && (out == Refused(UnsupportedEvent) <==> env.objectType !in FamiliesOf(env.operation))
            && (out.Recorded? <==> env.objectType in FamiliesOf(env.operation) && Unused(db.log, env.clientEventId))
            && (out.Recorded? ==>
                  out.event == Event(db.next, env.objectType, env.objectId, env.operation, env.sourceDevice,
                                     env.clientEventId, env.payload, now))
            && db' == (if out.Recorded? then Db(db.entries, db.log + [out.event], db.next + 1) else db)
    ensures var out := Record(db, env, now).1;
            forall e | e in db.log && e.clientEventId == env.clientEventId != "" ::
              env.objectType in FamiliesOf(env.operation) ==>
                out == if e.objectType == env.objectType && e.objectId == env.objectId
                          && e.operation == env.operation && e.sourceDevice == env.sourceDevice
                       then Existing(e) else Refused(IdempotencyConflict)
  {
    if env.operation in SupportedOperations(env.objectType) {
      SupportedIsListed(env.objectType, env.operation);
    } else if env.objectType in FamiliesOf(env.operation) {
      ListedIsSupported(env.objectType, env.operation);
    }
    forall e | e in db.log && e.clientEventId == env.clientEventId != ""
      ensures FindByClientId(db.log, env.clientEventId) == Some(e)
    {
    }
  }

  /** The state after an uninterrupted call. */
  function AfterCall(s: State, r: Request): State {
    var (db', out) := Call(s.db, r, s.now);
    s.(db := db', history := if out.Accepted? then s.history + [out.event] else s.history)
  }

  function CallSteps(r: Request): seq<Step> {
    [Begin(0, r)] + [Write(0), Lookup(0), Reserve(0), Insert(0), Commit(0)]
  }

  /** An accepted call is a schedule of the statement-level machine; so everything proved of schedules
      holds of runs of calls. */
  lemma CallIsASchedule(s: State, r: Request)
    requires s.txs == map[] && Keyed(s.db.entries) && Acceptable(s.db, r)
    ensures Leads(s, CallSteps(r), AfterCall(s, r))
  {
    CallEffects(s.db, r, s.now);
    AcceptableProceeds(s.db, r);
    var seen := Precheck(s.db, r).seen;
    var s1 := s.(txs := map[][0 := Checked(r, seen)]);
    var row := Effect(s.db, r);
    SoloFinishes(s1, map[], r, seen, row, true);
    assert Settled(s1, map[], r, row, true) == AfterCall(s, r);
    Prepend(s, Begin(0, r), s1, [Write(0), Lookup(0), Reserve(0), Insert(0), Commit(0)], AfterCall(s, r));
  }

  lemma CallKeepsQuiet(s: State, r: Request)
    requires Quiet(s) && Acceptable(s.db, r)
    ensures Quiet(AfterCall(s, r))
    ensures AfterCall(s, r).history == s.history + [EffectEvent(s.db, r, s.now)]
    ensures AfterCall(s, r).db.entries == s.db.entries[r.Id() := Effect(s.db, r)]
  {
    TableIsKeyed(s.history);
    CallEffects(s.db, r, s.now);
    CallIsASchedule(s, r);
    StartingNothingIsDistinct(Next(s, Begin(0, r)), [Write(0), Lookup(0), Reserve(0), Insert(0), Commit(0)]);
    assert CallSteps(r)[1..] == [Write(0), Lookup(0), Reserve(0), Insert(0), Commit(0)];
    DistinctRunsKeepInv(s, CallSteps(r));
  }

  /** `steps` is a schedule from `s` to `s'`. */
  predicate Leads(s: State, steps: seq<Step>, s': State) {
    Schedule(s, steps) && After(s, steps) == s'
  }

  lemma Prepend(s: State, step: Step, s1: State, rest: seq<Step>, s': State)
    requires Enabled(s, step) && Next(s, step) == s1 && Leads(s1, rest, s')
    ensures Leads(s, [step] + rest, s')
  {
  }

  lemma {:induction false} StartingNothingIsDistinct(s: State, steps: seq<Step>)
    requires Schedule(s, steps)
    requires forall step <- steps :: !step.Begin? && !step.Other?
    ensures DistinctSchedule(s, steps)
    decreases |steps|
  {
    if steps != [] {
      StartingNothingIsDistinct(Next(s, steps[0]), steps[1..]);
    }
  }

  /** Transactions that have only read so far. */
  predicate OnlyReaders(others: map<nat, Tx>) {
    0 !in others && forall u <- others :: others[u].Checked?
  }

  /** The state once the transaction has committed `row` with its event. */
  function Settled(s: State, others: map<nat, Tx>, r: Request, row: Entry, dirty: bool): State {
    var e := NewEvent(r.ToEnvelope(row), s.db.next, s.now);
    var entries := if dirty then s.db.entries[r.Id() := row] else s.db.entries;
    State(Db(entries, s.db.log + [e], s.db.next + 1), s.now, others, s.history + [e])
  }

  lemma SoloRecords(s: State, others: map<nat, Tx>, r: Request, row: Entry, dirty: bool)
    requires OnlyReaders(others) && s.txs == others[0 := LookedUp(r, row, dirty)] && Unused(s.db.log, r.clientEventId)
    ensures Leads(s, [Reserve(0), Insert(0), Commit(0)], Settled(s, others, r, row, dirty))
  {
  }

  lemma SoloLooksUp(s: State, others: map<nat, Tx>, r: Request, row: Entry, dirty: bool)
    requires OnlyReaders(others) && s.txs == others[0 := Written(r, row, dirty)] && Unused(s.db.log, r.clientEventId)
    ensures Leads(s, [Lookup(0), Reserve(0), Insert(0), Commit(0)], Settled(s, others, r, row, dirty))
  {
    var s2 := s.(txs := others[0 := LookedUp(r, row, dirty)]);
    SoloRecords(s2, others, r, row, dirty);
    assert FindByClientId(s.db.log, r.clientEventId).None?;
    Prepend(s, Lookup(0), s2, [Reserve(0), Insert(0), Commit(0)], Settled(s, others, r, row, dirty));
  }

  lemma SoloFinishes(s: State, others: map<nat, Tx>, r: Request, seen: Option<Entry>, row: Entry, dirty: bool)
    requires OnlyReaders(others) && s.txs == others[0 := Checked(r, seen)] && Unused(s.db.log, r.clientEventId)
    requires seen.None? <==> r.CreateEntry?
    requires WriteEntry(s.db.entries, r, seen) == Row(row, dirty)
    ensures Leads(s, [Write(0), Lookup(0), Reserve(0), Insert(0), Commit(0)], Settled(s, others, r, row, dirty))
  {
    var s1 := s.(txs := others[0 := Written(r, row, dirty)]);
    SoloLooksUp(s1, others, r, row, dirty);
    Prepend(s, Write(0), s1, [Lookup(0), Reserve(0), Insert(0), Commit(0)], Settled(s, others, r, row, dirty));
  }

  /** Between calls an entry's version is the number of times it changed, and it is one up after an
      accepted call and only there. */
  lemma VersionsAfterCall(s: State, r: Request, id: string)
    requires Quiet(s) && Acceptable(s.db, r)
    ensures var s' := AfterCall(s, r);
            && Changes(s'.history, id) == Changes(s.history, id) + (if id == r.Id() then 1 else 0)
            && (id in s'.db.entries <==> Changes(s'.history, id) > 0)
            && (id in s'.db.entries ==> s'.db.entries[id].version == Changes(s'.history, id))
  {
    CallKeepsQuiet(s, r);
    var s' := AfterCall(s, r);
    assert s'.history[..|s.history|] == s.history;
    VersionCountsChanges(s'.history, id);
  }

  /** Over any run, entries never disappear, their versions never go down, and a deleted one never changes. */
  lemma EntriesPersist(s: State, steps: seq<Step>, id: string)
    requires Inv(s) && Schedule(s, steps) && DistinctSchedule(s, steps)
    requires id in s.db.entries
    ensures var later := After(s, steps);
            && Inv(later)
            && id in later.db.entries
            && later.db.entries[id].version >= s.db.entries[id].version
            && (s.db.entries[id].status == Deleted ==> later.db.entries[id] == s.db.entries[id])
  {
    var later := After(s, steps);
    DistinctRunsKeepInv(s, steps);
    RunsKeepNumbered(s, steps);
    assert later.history[..|s.history|] == s.history;
    RowsOnlyAdvance(later.history, |s.history|, id);
  }

  /** At most once: while the event of an accepted keyed call is retained, whatever else has happened
      meanwhile, another call with that key changes nothing. The same call again is answered with that
      event and the entry as it now stands; a call for another entry, operation or device is refused. */
  lemma ReplayIsInert(s: State, r: Request, steps: seq<Step>, again: Request)
    requires Quiet(s) && Acceptable(s.db, r)
    requires Schedule(AfterCall(s, r), steps) && DistinctSchedule(AfterCall(s, r), steps)
    requires again.clientEventId == r.clientEventId != ""
    requires EffectEvent(s.db, r, s.now) in After(AfterCall(s, r), steps).db.log
    ensures var later := After(AfterCall(s, r), steps);
            var (db', out) := Call(later.db, again, later.now);
            && db' == later.db
            && r.Id() in later.db.entries
            && (again == r ==> out == Replayed(later.db.entries[r.Id()], EffectEvent(s.db, r, s.now)))
            && (again.Id() != r.Id() || again.Operation() != r.Operation() || again.device != r.device
                ==> out.Rejected?)
  {
    var s' := AfterCall(s, r);
    var later := After(s', steps);
    CallKeepsQuiet(s, r);
    EntriesPersist(s', steps, r.Id());
    RecordedKeyAnswers(later.db, EffectEvent(s.db, r, s.now), again, later.now);
  }

  // ---------- an overlapping retry ----------

  lemma SecondWriterAnsweredByReplay(s: State, r: Request, seen: Option<Entry>, e: Event)
    requires s.txs == map[1 := Checked(r, seen)] && r.UpdateEntry? && seen.Some?
    requires r.Id() in s.db.entries && s.db.entries[r.Id()].status == Active && s.db.entries[r.Id()].id == r.Id()
    requires FindByClientId(s.db.log, r.clientEventId) == Some(e)
    requires SameRequest(e, r.ToEnvelope(s.db.entries[r.Id()]))
    ensures var steps := [Write(1), Lookup(1), Commit(1)];
            Leads(s, steps, State(s.db.(entries := s.db.entries[r.Id() := WriteEntry(s.db.entries, r, seen).row]),
                                  s.now, map[], s.history))
  {
    var w := WriteEntry(s.db.entries, r, seen);
    var s1 := s.(txs := map[1 := Written(r, w.row, w.dirty)]);
    var s2 := s.(txs := map[1 := AnsweredByReplay(r, w.row, w.dirty, e)]);
    var s3 := State(s.db.(entries := s.db.entries[r.Id() := w.row]), s.now, map[], s.history);
    assert Next(s2, Commit(1)).txs == s3.txs;
    assert Leads(s3, [], s3);
    Prepend(s2, Commit(1), s3, [], s3);
    Prepend(s1, Lookup(1), s2, [Commit(1)], s3);
    Prepend(s, Write(1), s1, [Lookup(1), Commit(1)], s3);
  }

  lemma {:induction false} LeadsOn(s: State, a: seq<Step>, s1: State, b: seq<Step>, s2: State)
    requires Leads(s, a, s1) && Leads(s1, b, s2)
    ensures Leads(s, a + b, s2)
    decreases |a|
  {
    if a == [] {
      assert a + b == b;
    } else {
      LeadsOn(Next(s, a[0]), a[1..], s1, b, s2);
      Prepend(s, a[0], Next(s, a[0]), a[1..] + b, s2);
      assert [a[0]] + (a[1..] + b) == a + b;
    }
  }

  function OverlapSteps(r: Request): seq<Step> {
    [Begin(1, r)]
    + ([Begin(0, r)]
       + ([Write(0), Lookup(0), Reserve(0), Insert(0), Commit(0)] + [Write(1), Lookup(1), Commit(1)]))
  }

  /** The entry two versions up, one event recorded. */
  function Overlapped(s: State, r: Request): State
    requires r.Id() in s.db.entries
  {
    var row := Effect(s.db, r);
    var e := EffectEvent(s.db, r, s.now);
    State(Db(s.db.entries[r.Id() := row.(version := row.version + 1)], s.db.log + [e], s.db.next + 1),
          s.now, map[], s.history + [e])
  }

  lemma RecordedKeyIsFound(log: seq<Event>, e: Event)
    requires Unused(log, e.clientEventId) && e.clientEventId != ""
    ensures FindByClientId(log + [e], e.clientEventId) == Some(e)
  {
  }

  lemma OverlapRuns(s: State, r: Request)
    requires s.txs == map[] && Keyed(s.db.entries)
    requires Acceptable(s.db, r) && r.UpdateEntry? && r.clientEventId != ""
    ensures Leads(s, OverlapSteps(r), Overlapped(s, r))
  {
    AcceptableProceeds(s.db, r);
    var seen := Precheck(s.db, r).seen;
    var row := Effect(s.db, r);
    var others := map[1 := Checked(r, seen)];
    var s1 := s.(txs := others);
    var s2 := s.(txs := others[0 := Checked(r, seen)]);
    SoloFinishes(s2, others, r, seen, row, true);
    var s3 := Settled(s2, others, r, row, true);
    RecordedKeyIsFound(s.db.log, EffectEvent(s.db, r, s.now));
    SecondWriterAnsweredByReplay(s3, r, seen, EffectEvent(s.db, r, s.now));
    var s4 := Overlapped(s, r);
    assert s3.db.entries[r.Id() := s4.db.entries[r.Id()]] == s4.db.entries;
    LeadsOn(s2, [Write(0), Lookup(0), Reserve(0), Insert(0), Commit(0)], s3, [Write(1), Lookup(1), Commit(1)], s4);
    OverlapBegins(s, r, s1, s2, s4);
  }

  lemma OverlapBegins(s: State, r: Request, s1: State, s2: State, s4: State)
    requires s.txs == map[] && Precheck(s.db, r).Proceed?
    requires var c := Checked(r, Precheck(s.db, r).seen);
             s1 == s.(txs := map[1 := c]) && s2 == s.(txs := map[1 := c][0 := c])
    requires Leads(s2, [Write(0), Lookup(0), Reserve(0), Insert(0), Commit(0)] + [Write(1), Lookup(1), Commit(1)], s4)
    ensures Leads(s, OverlapSteps(r), s4)
  {
    var rest := [Write(0), Lookup(0), Reserve(0), Insert(0), Commit(0)] + [Write(1), Lookup(1), Commit(1)];
    Prepend(s1, Begin(0, r), s2, rest, s4);
    Prepend(s, Begin(1, r), s1, [Begin(0, r)] + rest, s4);
  }

  /** Why keys in flight together must differ: for every keyed update that a quiet state accepts, a
      retry that overlaps the first attempt takes the entry two versions up with a single event, so table
      and log disagree from then on and no device learns the last version. */
  lemma OverlappingRetryDiverges(s: State, r: Request)
    requires Quiet(s) && Acceptable(s.db, r) && r.UpdateEntry? && r.clientEventId != ""
    ensures Schedule(s, OverlapSteps(r))
    ensures var s' := After(s, OverlapSteps(r));
            && s'.txs == map[]
            && s'.history == s.history + [EffectEvent(s.db, r, s.now)]
            && r.Id() in s'.db.entries
            && s'.db.entries[r.Id()].version == s.db.entries[r.Id()].version + 2
            && !Agreement(s')
  {
    TableIsKeyed(s.history);
    OverlapRuns(s, r);
    CallKeepsQuiet(s, r);
    assert Agreement(AfterCall(s, r));
    assert Overlapped(s, r).history == AfterCall(s, r).history;
    assert TableOf(AfterCall(s, r).history)[r.Id()] == Effect(s.db, r);
  }
}

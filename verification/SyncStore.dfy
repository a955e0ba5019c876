/** The sync tables as a mutable store, with the service calls over them. Every method is proved against
    the functions on one user's rows, and leaves the rows of every other user alone. */
module SyncStore {
  import opened Common
  import opened SyncModel
  import opened SyncPaging

  type User = string

  datatype EventRow = EventRow(user: User, event: Event)

  /** One user's rows of the shared event table, in insertion order. */
  function ForUser(rows: seq<EventRow>, user: User): seq<Event> {
    if rows == [] then []
    else
      var last := rows[|rows| - 1];
      ForUser(rows[..|rows| - 1], user) + if last.user == user then [last.event] else []
  }

  lemma ForUserAppend(rows: seq<EventRow>, row: EventRow, user: User)
    ensures ForUser(rows + [row], user)
         == if row.user == user then ForUser(rows, user) + [row.event] else ForUser(rows, user)
  {
    assert (rows + [row])[..|rows|] == rows;
  }

  lemma ForUserStep(rows: seq<EventRow>, i: nat, user: User)
    requires i < |rows|
    ensures ForUser(rows[..i + 1], user) ==
            if rows[i].user == user then ForUser(rows[..i], user) + [rows[i].event] else ForUser(rows[..i], user)
  {
    assert rows[..i + 1] == rows[..i] + [rows[i]];
    ForUserAppend(rows[..i], rows[i], user);
  }

  lemma {:induction false} FindAppend(log: seq<Event>, e: Event, key: string)
    ensures FindByClientId(log + [e], key) ==
            if FindByClientId(log, key).Some? then FindByClientId(log, key)
            else if key != "" && e.clientEventId == key then Some(e)
            else None
  {
    if key != "" && log != [] {
      assert (log + [e])[1..] == log[1..] + [e];
      FindAppend(log[1..], e, key);
    }
  }

  lemma SinceHead(e: Event, log: seq<Event>, n: nat)
    ensures Since([e] + log, n) == if e.sequence > n then [e] + Since(log, n) else Since(log, n)
  {
    assert ([e] + log)[1..] == log;
  }

  /** Ordering and then dropping the low numbers is dropping them first. */
  lemma {:induction false} SinceInsert(log: seq<Event>, e: Event, n: nat)
    ensures Since(InsertBySequence(log, e), n)
         == if e.sequence > n then InsertBySequence(Since(log, n), e) else Since(log, n)
  {
    if log == [] {
      SinceHead(e, [], n);
      assert [e] + [] == [e];
    } else {
      assert log == [log[0]] + log[1..];
      SinceHead(log[0], log[1..], n);
      if e.sequence < log[0].sequence {
        SinceHead(e, log, n);
      } else {
        SinceInsert(log[1..], e, n);
        SinceHead(log[0], InsertBySequence(log[1..], e), n);
        assert ([log[0]] + Since(log[1..], n))[1..] == Since(log[1..], n);
      }
    }
  }

  lemma {:induction false} KeepAppend(log: seq<Event>, e: Event, cutoff: nat)
    ensures Keep(log + [e], cutoff) == if e.timestamp >= cutoff then Keep(log, cutoff) + [e] else Keep(log, cutoff)
  {
    if log == [] {
      assert log + [e] == [e] && [e][1..] == [];
    } else {
      assert (log + [e])[1..] == log[1..] + [e] && (log + [e])[0] == log[0];
      KeepAppend(log[1..], e, cutoff);
    }
  }

  /** What the lookup finds in the first rows it finds in all of them. */
  lemma {:induction false} FoundEarly(rows: seq<EventRow>, n: nat, user: User, key: string)
    requires n <= |rows|
    requires FindByClientId(ForUser(rows[..n], user), key).Some?
    ensures FindByClientId(ForUser(rows, user), key) == FindByClientId(ForUser(rows[..n], user), key)
    decreases |rows| - n
  {
    if n == |rows| {
      assert rows[..n] == rows;
    } else {
      ForUserStep(rows, n, user);
      FindAppend(ForUser(rows[..n], user), rows[n].event, key);
      FoundEarly(rows, n + 1, user, key);
    }
  }

  /** What one more row does to the ordered rows above a number. */
  lemma FoundStep(rows: seq<EventRow>, i: nat, user: User, since: nat)
    requires i < |rows|
    ensures var found := Since(BySequence(ForUser(rows[..i], user)), since);
            Since(BySequence(ForUser(rows[..i + 1], user)), since)
            == if rows[i].user == user && rows[i].event.sequence > since
               then InsertBySequence(found, rows[i].event) else found
  {
    ForUserStep(rows, i, user);
    var log, e := ForUser(rows[..i], user), rows[i].event;
    if rows[i].user == user {
      assert (log + [e])[..|log|] == log;
      SinceInsert(BySequence(log), e, since);
    }
  }

  // ---------- numbers ----------

  /** The user's numbers ascend from at least 1 and the next one is above them all. */
  predicate WellNumbered(db: Db) {
    Ascending(db.log) && Above(db.log, 0) && db.next > 0 && forall e <- db.log :: e.sequence < db.next
  }

  lemma {:induction false} AppendAscends(log: seq<Event>, e: Event)
    requires Ascending(log) && forall x <- log :: x.sequence < e.sequence
    ensures Ascending(log + [e])
  {
    if log != [] {
      AppendAscends(log[1..], e);
      assert (log + [e])[1..] == log[1..] + [e] && (log + [e])[0] == log[0];
      assert log[0] in log;
    } else {
      assert ([] + [e])[1..] == [];
    }
  }

  lemma {:induction false} KeepMembers(log: seq<Event>, cutoff: nat)
    ensures forall e :: e in Keep(log, cutoff) <==> e in log && e.timestamp >= cutoff
  {
    if log != [] {
      KeepMembers(log[1..], cutoff);
      assert log == [log[0]] + log[1..];
    }
  }

  lemma PrependAscends(e: Event, log: seq<Event>)
    requires Ascending(log) && Above(log, e.sequence)
    ensures Ascending([e] + log)
  {
    assert ([e] + log)[1..] == log;
  }

  lemma {:induction false} KeepAscends(log: seq<Event>, cutoff: nat)
    requires Ascending(log)
    ensures Ascending(Keep(log, cutoff))
  {
    if log != [] {
      var rest := Keep(log[1..], cutoff);
      KeepAscends(log[1..], cutoff);
      KeepMembers(log[1..], cutoff);
      PrependAscends(log[0], rest);
      assert [] + rest == rest;
    }
  }

  lemma RecordKeepsNumbers(db: Db, env: Envelope, now: nat)
    requires WellNumbered(db)
    ensures WellNumbered(Record(db, env, now).0)
  {
    AppendAscends(db.log, NewEvent(env, db.next, now));
  }

  lemma CallKeepsNumbers(db: Db, r: Request, now: nat)
    requires WellNumbered(db)
    ensures WellNumbered(Call(db, r, now).0)
  {
    var c := Precheck(db, r);
    if c.Proceed? {
      var w := WriteEntry(db.entries, r, c.seen);
      if w.Row? {
        RecordKeepsNumbers(db.(entries := db.entries[r.Id() := w.row]), r.ToEnvelope(w.row), now);
      }
    }
  }

  class Store {
    var entries: map<User, Table>
    var events: seq<EventRow>
    var sequences: map<User, nat>
    var cursors: map<(User, string), nat>

    /** The rows of one user. */
    function View(user: User): Db
      reads this
    {
      Db(if user in entries then entries[user] else map[],
         ForUser(events, user),
         if user in sequences then sequences[user] else 1)
    }

    function Cursor(user: User, device: string): nat
      reads this
    {
      if (user, device) in cursors then cursors[(user, device)] else 0
    }

    /** Every user's numbers are in order. All methods keep this; pulls do not rely on it, but with it ordering
        changes nothing (`AscendingIsOrdered`). */
    ghost predicate Valid()
      reads this
    {
      forall user :: WellNumbered(View(user))
    }

    constructor ()
      ensures Valid() && forall user :: View(user) == EMPTY_DB
      ensures forall user, device :: Cursor(user, device) == 0
    {
      entries, events, sequences, cursors := map[], [], map[], map[];
    }

    method GetEventByClientEventID(user: User, key: string) returns (found: Option<Event>)
      ensures found == FindByClientId(View(user).log, key)
    {
      found := None;
      if key == "" {
        return;
      }
      var i := 0;
      while i < |events| && found.None?
        invariant 0 <= i <= |events|
        invariant found == FindByClientId(ForUser(events[..i], user), key)
      {
        var row := events[i];
        if row.user == user && row.event.clientEventId == key {
          found := Some(row.event);
        }
        ForUserStep(events, i, user);
        FindAppend(ForUser(events[..i], user), row.event, key);
        i := i + 1;
      }
      if found.Some? {
        FoundEarly(events, i, user, key);
      } else {
        assert events[..i] == events;
      }
    }

    /** Seeds the user's sequence row if there is none, then takes its number. */
    method GetNextSequence(user: User) returns (reserved: nat)
      modifies this`sequences
      ensures reserved == old(View(user)).next
      ensures View(user) == old(View(user)).(next := reserved + 1)
      ensures forall other :: other != user ==> View(other) == old(View(other))
      ensures old(Valid()) ==> Valid()
    {
      if user !in sequences {
        sequences := sequences[user := 1];
      }
      reserved := sequences[user];
      sequences := sequences[user := reserved + 1];
    }

    method InsertEvent(user: User, e: Event)
      modifies this`events
      ensures View(user) == old(View(user)).(log := old(View(user)).log + [e])
      ensures forall other :: other != user ==> View(other) == old(View(other))
    {
      forall other {
        ForUserAppend(events, EventRow(user, e), other);
      }
      events := events + [EventRow(user, e)];
    }

    /** `recordEnvelopeWithRepo`; `insertFails` is the event insert failing. Outside a transaction the
        number already taken is then lost. */
    method RecordEnvelope(user: User, env: Envelope, now: nat, insertFails: bool) returns (out: RecordOutcome)
      modifies this`events, this`sequences
      ensures var (db, expected) := Record(old(View(user)), env, now);
              if insertFails && expected.Recorded?
              then out == Refused(StorageFailure) && View(user) == old(View(user)).(next := old(View(user)).next + 1)
              else out == expected && View(user) == db
      ensures forall other :: other != user ==> View(other) == old(View(other))
      ensures old(Valid()) ==> Valid()
    {
      if WellNumbered(View(user)) {
        RecordKeepsNumbers(View(user), env, now);
      }
      if env.operation !in SupportedOperations(env.objectType) {
        return Refused(UnsupportedEvent);
      }
      if env.clientEventId != "" {
        var existing := GetEventByClientEventID(user, env.clientEventId);
        if existing.Some? {
          if SameRequest(existing.value, env) {
            return Existing(existing.value);
          }
          return Refused(IdempotencyConflict);
        }
      }
      var number := GetNextSequence(user);
      if insertFails {
        return Refused(StorageFailure);
      }
      var e := NewEvent(env, number, now);
      InsertEvent(user, e);
      out := RecordOutcome.Recorded(e);
    }

    /** The idempotency lookup, status guard and base version check before the transaction. */
    method CheckRequest(user: User, r: Request) returns (c: Check)
      ensures c == Precheck(View(user), r)
    {
      var invalid := ValidateInput(r);
      if invalid.Some? {
        return Reject(invalid.value);
      }
      var id := r.Id();
      var table := View(user).entries;
      var existing := GetEventByClientEventID(user, r.clientEventId);
      if existing.Some? {
        var e := existing.value;
        if e.objectType != OBJECT_KNOWLEDGE || e.objectId != id
           || e.operation != r.Operation() || e.sourceDevice != r.device
        {
          return Reject(IdempotencyConflict);
        }
        if id !in table {
          return Reject(EntryNotFound);
        }
        return Replay(e, table[id]);
      }
      if r.CreateEntry? {
        return Proceed(None);
      }
      if id !in table {
        return Reject(EntryNotFound);
      }
      if table[id].status == Deleted {
        return Reject(Error.EntryDeleted);
      }
      if r.base.Some? && r.base.value != table[id].version {
        return Reject(VersionConflict);
      }
      c := Proceed(Some(table[id]));
    }

    /** The entry statement and the event in one transaction; when either fails, all rows are as before. */
    method Transact(user: User, r: Request, seen: Option<Entry>, now: nat, insertFails: bool) returns (out: Outcome)
      requires Precheck(View(user), r) == Proceed(seen)
      modifies this`entries, this`events, this`sequences
      ensures var (db, expected) := Call(old(View(user)), r, now);
              if insertFails && expected.Accepted?
              then out == Rejected(StorageFailure) && View(user) == old(View(user))
              else out == expected && View(user) == db
      ensures forall other :: other != user ==> View(other) == old(View(other))
    {
      var table := View(user).entries;
      var w := WriteEntry(table, r, seen);
      if w.WriteFails? {
        return Rejected(w.error);
      }
      var savedEntries, savedEvents, savedSequences := entries, events, sequences;
      entries := entries[user := table[r.Id() := w.row]];
      var recorded := RecordEnvelope(user, r.ToEnvelope(w.row), now, insertFails);
      if recorded.Refused? {
        entries, events, sequences := savedEntries, savedEvents, savedSequences;
        return Rejected(recorded.error);
      }
      out := Accepted(w.row, recorded.event);
    }

    /** `CreateEntry`, `UpdateEntry` and `DeleteEntry`: the checks, then the transaction. */
    method Submit(user: User, r: Request, now: nat, insertFails: bool) returns (out: Outcome)
      modifies this`entries, this`events, this`sequences
      ensures var (db, expected) := Call(old(View(user)), r, now);
              if insertFails && expected.Accepted?
              then out == Rejected(StorageFailure) && View(user) == old(View(user))
              else out == expected && View(user) == db
      ensures forall other :: other != user ==> View(other) == old(View(other))
      ensures old(Valid()) ==> Valid()
    {
      if WellNumbered(View(user)) {
        CallKeepsNumbers(View(user), r, now);
      }
      var check := CheckRequest(user, r);
      match check
      case Reject(e) => return Rejected(e);
      case Replay(e, entry) => return Replayed(entry, e);
      case Proceed(seen) => out := Transact(user, r, seen, now, insertFails);
    }

    /** `GetEventsSince`: the user's rows above a number, in number order, at most `limit` of them. */
    method GetEventsSince(user: User, since: nat, limit: nat) returns (page: seq<Event>)
      ensures page == Take(Since(BySequence(View(user).log), since), limit)
    {
      page := [];
      var i := 0;
      while i < |events|
        invariant 0 <= i <= |events|
        invariant page == Since(BySequence(ForUser(events[..i], user)), since)
      {
        var row := events[i];
        FoundStep(events, i, user, since);
        if row.user == user && row.event.sequence > since {
          page := InsertBySequence(page, row.event);
        }
        i := i + 1;
      }
      assert events[..|events|] == events;
      page := Take(page, limit);
    }

    /** The pull handler and the two service queries behind it. */
    method Pull(user: User, device: string, after: Option<nat>, requested: int) returns (reply: Reply)
      ensures reply == PullReply(BySequence(View(user).log), Cursor(user, device), after, requested)
    {
      var limit := NormalizeLimit(requested);
      var queryLimit := limit + 1;
      var start := if after.Some? then after.value else Cursor(user, device);
      var rows := GetEventsSince(user, start, if queryLimit <= 0 || queryLimit > 500 then 100 else queryLimit);
      assert rows == Page(BySequence(View(user).log), start, queryLimit);
      var hasMore := |rows| > limit;
      if hasMore {
        rows := rows[..limit];
      }
      var nextAfter := 0;
      if |rows| > 0 {
        nextAfter := rows[|rows| - 1].sequence;
      } else if after.Some? {
        nextAfter := after.value;
      }
      reply := Reply(rows, nextAfter, hasMore);
    }

    /** Acknowledging 0 is a bad request; otherwise the cursor moves forward only. */
    method Ack(user: User, device: string, lastSequence: nat) returns (ok: bool)
      modifies this`cursors
      ensures ok <==> lastSequence != 0
      ensures Cursor(user, device) ==
              if lastSequence > old(Cursor(user, device)) then lastSequence else old(Cursor(user, device))
      ensures forall u, d :: (u, d) != (user, device) ==> Cursor(u, d) == old(Cursor(u, d))
    {
      if lastSequence == 0 {
        return false;
      }
      var sequence := lastSequence;
      if sequence < Cursor(user, device) {
        sequence := Cursor(user, device);
      }
      cursors := cursors[(user, device) := sequence];
      ok := true;
    }

    /** The rows a cleanup leaves. */
    method KeptRows(cutoff: nat) returns (kept: seq<EventRow>)
      ensures |kept| <= |events|
      ensures forall user :: ForUser(kept, user) == Keep(ForUser(events, user), cutoff)
    {
      kept := [];
      var i := 0;
      while i < |events|
        invariant 0 <= i <= |events| && |kept| <= i
        invariant forall user :: ForUser(kept, user) == Keep(ForUser(events[..i], user), cutoff)
      {
        var row := events[i];
        var longer := if row.event.timestamp >= cutoff then kept + [row] else kept;
        forall user ensures ForUser(longer, user) == Keep(ForUser(events[..i + 1], user), cutoff) {
          ForUserStep(events, i, user);
          ForUserAppend(kept, row, user);
          KeepAppend(ForUser(events[..i], user), row.event, cutoff);
        }
        kept := longer;
        i := i + 1;
      }
      assert events[..|events|] == events;
    }

    /** Deletes every user's rows stamped before the cutoff. */
    method CleanupOldEvents(cutoff: nat) returns (removed: nat)
      modifies this`events
      ensures forall user :: View(user) == old(View(user)).(log := Keep(old(View(user)).log, cutoff))
      ensures removed == |old(events)| - |events|
      ensures old(Valid()) ==> Valid()
    {
      var kept := KeptRows(cutoff);
      removed := |events| - |kept|;
      forall user | WellNumbered(View(user))
        ensures WellNumbered(View(user).(log := ForUser(kept, user)))
      {
        KeepAscends(View(user).log, cutoff);
        KeepMembers(View(user).log, cutoff);
      }
      events := kept;
    }
  }
}

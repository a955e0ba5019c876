/** The rows of the sync tables and what one service call does to the rows of one user. */
module SyncModel {
  import opened Common

  const OBJECT_KNOWLEDGE := "knowledge"
  const OP_CREATED := "created"
  const OP_UPDATED := "updated"
  const OP_DELETED := "deleted"

  datatype Status = Active | Deleted

  /** SHA-256 as a free constructor: equal digests come from equal contents. */
  datatype Digest = Digest(content: string)

  datatype Entry = Entry(
    id: string,
    title: string,
    content: string,
    contentHash: Digest,
    status: Status,
    version: nat,
    updatedBy: string)

  datatype Payload = KnowledgePayload(entry: Entry) | OtherPayload(body: string)

  datatype Event = Event(
    sequence: nat,
    objectType: string,
    objectId: string,
    operation: string,
    sourceDevice: string,
    clientEventId: string,
    payload: Payload,
    timestamp: nat)

  type Table = map<string, Entry>

  /** The rows of one user: knowledge entries, sync events in insertion order, and the sequence row
      (a user without a sequence row is one whose next number is 1). */
  datatype Db = Db(entries: Table, log: seq<Event>, next: nat)

  const EMPTY_DB := Db(map[], [], 1)

  datatype Error =
    | EntryIdRequired
    | TitleRequired
    | ContentRequired
    | IdempotencyConflict
    | EntryNotFound
    | EntryDeleted
    | VersionConflict
    | EntryExists
    | UnsupportedEvent
    | StorageFailure

  // ---------- the event families a server accepts ----------

  function SupportedOperations(objectType: string): set<string> {
    if objectType == "message" then {"created", "updated", "deleted", "reaction_added", "reaction_removed"}
    else if objectType == "conversation" then {"created", "updated", "read"}
    else if objectType == "participant" then {"added", "updated", "removed"}
    else if objectType == "message_reaction" then {"added", "removed"}
    else if objectType == "conversation_read" then {"updated"}
    else if objectType == OBJECT_KNOWLEDGE then {OP_CREATED, OP_UPDATED, OP_DELETED}
    else if objectType == "contact" then {"created", "updated", "deleted"}
    else if objectType == "skill" then {"enabled", "disabled", "updated", "installed", "uninstalled"}
    else if objectType == "agent" then {"updated"}
    else if objectType == "server" then {"added", "updated", "removed"}
    else if objectType == "plugin" then
      {"added", "updated", "removed", "installed", "uninstalled", "enabled", "disabled",
       "permission_granted", "permission_revoked"}
    else if objectType == "profile" then {"updated"}
    else {}
  }

  // ---------- recording one envelope ----------

  datatype Envelope = Envelope(
    objectType: string,
    objectId: string,
    operation: string,
    sourceDevice: string,
    clientEventId: string,
    payload: Payload)

  datatype RecordOutcome = Recorded(event: Event) | Existing(event: Event) | Refused(error: Error)

  /** `GetEventByClientEventID`: an empty id finds nothing. */
  function FindByClientId(log: seq<Event>, key: string): (found: Option<Event>)
    ensures found.Some? ==> key != "" && found.value in log && found.value.clientEventId == key
    ensures found.None? ==> key == "" || forall e <- log :: e.clientEventId != key
  {
    if key == "" || log == [] then None
    else if log[0].clientEventId == key then Some(log[0])
    else FindByClientId(log[1..], key)
  }

  predicate SameRequest(e: Event, env: Envelope) {
    && e.objectType == env.objectType
    && e.objectId == env.objectId
    && e.operation == env.operation
    && e.sourceDevice == env.sourceDevice
  }

  function NewEvent(env: Envelope, sequence: nat, now: nat): Event {
    Event(sequence, env.objectType, env.objectId, env.operation, env.sourceDevice, env.clientEventId, env.payload, now)
  }

  /** `recordEnvelopeWithRepo` on the rows of the envelope's user. */
  function Record(db: Db, env: Envelope, now: nat): (Db, RecordOutcome) {
    if env.operation !in SupportedOperations(env.objectType) then (db, Refused(UnsupportedEvent))
    else
      match FindByClientId(db.log, env.clientEventId)
      case Some(e) => (db, if SameRequest(e, env) then Existing(e) else Refused(IdempotencyConflict))
      case None =>
        var e := NewEvent(env, db.next, now);
        (db.(log := db.log + [e], next := db.next + 1), Recorded(e))
  }

  // ---------- knowledge entry requests ----------

  datatype Request =
    | CreateEntry(device: string, clientEventId: string, rawId: string, title: string, content: string)
    | UpdateEntry(
        device: string, clientEventId: string, rawId: string, title: string, content: string, base: Option<nat>)
    | DeleteEntry(device: string, clientEventId: string, rawId: string, base: Option<nat>)
  {
    function Id(): string { Trim(rawId) }

    function Operation(): string {
      match this
      case CreateEntry(_, _, _, _, _) => OP_CREATED
      case UpdateEntry(_, _, _, _, _, _) => OP_UPDATED
      case DeleteEntry(_, _, _, _) => OP_DELETED
    }

    /** The envelope the service records for this request once `row` is the persisted row. */
    function ToEnvelope(row: Entry): Envelope {
      Envelope(OBJECT_KNOWLEDGE, row.id, Operation(), device, clientEventId, KnowledgePayload(row))
    }
  }

  function ValidateInput(r: Request): Option<Error> {
    if r.Id() == "" then Some(EntryIdRequired)
    else if !r.DeleteEntry? && Blank(r.title) then Some(TitleRequired)
    else if !r.DeleteEntry? && Blank(r.content) then Some(ContentRequired)
    else None
  }

  datatype Check = Proceed(seen: Option<Entry>) | Replay(event: Event, entry: Entry) | Reject(error: Error)

  /** Everything a call reads before it opens its transaction: input validation, the idempotency
      lookup, the status guard and the base version. */
  function Precheck(db: Db, r: Request): (c: Check)
    ensures c.Proceed? ==> (c.seen.None? <==> r.CreateEntry?) && r.Id() != ""
    ensures c.Proceed? ==> FindByClientId(db.log, r.clientEventId).None?
  {
    match ValidateInput(r)
    case Some(e) => Reject(e)
    case None =>
      var id := r.Id();
      match FindByClientId(db.log, r.clientEventId)
      case Some(e) =>
        if e.objectType != OBJECT_KNOWLEDGE || e.objectId != id
           || e.operation != r.Operation() || e.sourceDevice != r.device
        then Reject(IdempotencyConflict)
        else if id !in db.entries then Reject(EntryNotFound)
        else Replay(e, db.entries[id])
      case None =>
        if r.CreateEntry? then Proceed(None)
        else if id !in db.entries then Reject(EntryNotFound)
        else if db.entries[id].status == Deleted then Reject(Error.EntryDeleted)
        else if r.base.Some? && r.base.value != db.entries[id].version then Reject(VersionConflict)
        else Proceed(Some(db.entries[id]))
  }

  datatype WriteResult = Row(row: Entry, dirty: bool) | WriteFails(error: Error)

  /** The entry statement of the transaction and the read-back that follows it. `UpdateActive` does not
      look at the number of affected rows: on a row that is no longer active it writes nothing and the
      read-back returns that row (`dirty` is false). `Tombstone` stores the hash of the content read
      before the transaction (`seen`). */
  function WriteEntry(entries: Table, r: Request, seen: Option<Entry>): (w: WriteResult)
    requires seen.None? <==> r.CreateEntry?
    ensures w.Row? ==> w.row.id == r.Id() || (r.Id() in entries && w.row.id == entries[r.Id()].id)
  {
    var id := r.Id();
    match r
    case CreateEntry(device, _, _, title, content) =>
      if id in entries then WriteFails(EntryExists)
      else Row(Entry(id, Trim(title), content, Digest(content), Active, 1, device), true)
    case UpdateEntry(device, _, _, title, content, _) =>
      if id !in entries then WriteFails(EntryNotFound)
      else if entries[id].status == Active then
        var old' := entries[id];
        Row(old'.(title := Trim(title), content := content, contentHash := Digest(content),
                  version := old'.version + 1, updatedBy := device), true)
      else Row(entries[id], false)
    case DeleteEntry(device, _, _, _) =>
      if id in entries && entries[id].status == Active then
        var old' := entries[id];
        Row(old'.(status := Deleted, contentHash := Digest(seen.value.content),
                  version := old'.version + 1, updatedBy := device), true)
      else WriteFails(EntryNotFound)
  }

  datatype Outcome =
    | Accepted(entry: Entry, event: Event)
    | Replayed(entry: Entry, event: Event)
    | Rejected(error: Error)

  /** One uninterrupted service call: `CreateEntry`, `UpdateEntry` or `DeleteEntry`. A transaction that
      returns an error leaves the rows as they were. */
  function Call(db: Db, r: Request, now: nat): (Db, Outcome) {
    match Precheck(db, r)
    case Reject(e) => (db, Rejected(e))
    case Replay(e, entry) => (db, Replayed(entry, e))
    case Proceed(seen) =>
      match WriteEntry(db.entries, r, seen)
      case WriteFails(e) => (db, Rejected(e))
      case Row(row, _) =>
        var (db', out) := Record(db.(entries := db.entries[r.Id() := row]), r.ToEnvelope(row), now);
        match out
        case Recorded(event) => (db', Accepted(row, event))
        case Existing(event) => (db', Accepted(row, event))
        case Refused(e) => (db, Rejected(e))
  }

  /** `CleanupOldEvents` on one user's rows. */
  function Keep(log: seq<Event>, cutoff: nat): seq<Event> {
    if log == [] then []
    else (if log[0].timestamp < cutoff then [] else [log[0]]) + Keep(log[1..], cutoff)
  }
}

/** The audit log: an append that chains hashes, and the verifier that walks the chain. The hash is any
    function from the hashed fields to text. */
module AuditChain {
  import opened Common

  /** The fields that enter the hash, apart from sequence and previous hash. An absent actor is hashed as
      the empty string. */
  datatype Facts = Facts(
    id: string,
    actorUserId: string,
    actorDeviceId: string,
    action: string,
    resourceType: string,
    resourceId: string,
    outcome: string,
    ipAddress: string,
    userAgent: string,
    metadata: string,
    occurredAt: int)

  datatype Payload = Payload(sequence: int, previousHash: string, facts: Facts)

  datatype Event = Event(sequence: int, previousHash: string, facts: Facts, eventHash: string, algorithm: string)
  {
    function Hashed(): Payload { Payload(sequence, previousHash, facts) }
  }

  type Hash = Payload -> string

  const GENESIS := "GENESIS"
  const SHA256 := "sha256"

  /** A hash text is neither empty nor the genesis marker (it is 64 hexadecimal digits). */
  ghost predicate WellBehaved(hash: Hash) {
    forall p :: hash(p) != "" && hash(p) != GENESIS
  }

  ghost predicate Injective(hash: Hash) {
    forall p, q :: hash(p) == hash(q) ==> p == q
  }

  // ---------- recording ----------

  datatype RecordInput = RecordInput(
    id: string,
    actorUserId: string,
    actorDeviceId: string,
    action: string,
    resourceType: string,
    resourceId: string,
    outcome: string,
    ipAddress: string,
    userAgent: string,
    metadata: string)

  function FactsOf(input: RecordInput, now: int): Facts {
    Facts(input.id, input.actorUserId, Trim(input.actorDeviceId), Trim(input.action), Trim(input.resourceType),
          Trim(input.resourceId), if Blank(input.outcome) then "success" else Trim(input.outcome),
          Trim(input.ipAddress), Trim(input.userAgent), input.metadata, now)
  }

  /** The event that follows `previous` (the last row, if any). */
  function Successor(hash: Hash, previous: Option<Event>, facts: Facts): Event {
    var sequence := if previous.Some? then previous.value.sequence + 1 else 1;
    var previousHash := if previous.Some? then previous.value.eventHash else GENESIS;
    Event(sequence, previousHash, facts, hash(Payload(sequence, previousHash, facts)), SHA256)
  }

  function Last(log: seq<Event>): Option<Event> {
    if log == [] then None else Some(log[|log| - 1])
  }

  // ---------- verifying ----------

  datatype Reason = HashMismatch | LinkMismatch | SequenceGap | MissingHash | UnsupportedAlgorithm

  datatype Break = Break(sequence: int, id: string, reason: Reason)

  /** Where the verifier stands: what it expects of the next event, and what it has found. */
  datatype Walk = Walk(previousHash: string, previousSequence: int, breaks: seq<Break>, head: Option<(string, int)>)

  const FRESH := Walk(GENESIS, 0, [], None)

  /** The breaks one event adds. */
  function BreaksAt(hash: Hash, w: Walk, e: Event): seq<Break> {
    if e.algorithm != SHA256 then [Break(e.sequence, e.facts.id, UnsupportedAlgorithm)]
    else
      (if e.sequence != w.previousSequence + 1 then [Break(e.sequence, e.facts.id, SequenceGap)] else [])
      + (if e.previousHash != w.previousHash then [Break(e.sequence, e.facts.id, LinkMismatch)] else [])
      + (if e.eventHash == "" || e.previousHash == "" then [Break(e.sequence, e.facts.id, MissingHash)]
         else if e.eventHash != hash(e.Hashed()) then [Break(e.sequence, e.facts.id, HashMismatch)]
         else [])
  }

  /** An event of another algorithm is reported and otherwise passed over. */
  function StepWalk(hash: Hash, w: Walk, e: Event): Walk {
    var breaks := w.breaks + BreaksAt(hash, w, e);
    if e.algorithm != SHA256 then w.(breaks := breaks)
    else Walk(e.eventHash, e.sequence, breaks, Some((e.eventHash, e.sequence)))
  }

  function Verify(hash: Hash, log: seq<Event>): Walk {
    if log == [] then FRESH
    else StepWalk(hash, Verify(hash, log[..|log| - 1]), log[|log| - 1])
  }

  class AuditLog {
    var rows: seq<Event>
    const hash: Hash

    constructor (hash: Hash)
      ensures rows == [] && this.hash == hash
    {
      this.hash := hash;
      rows := [];
    }

    /** `Record`: a record without action or resource type is ignored. */
    method Record(input: RecordInput, now: int) returns (event: Option<Event>)
      modifies this
      ensures event.None? <==> Blank(input.action) || Blank(input.resourceType)
      ensures event.None? ==> rows == old(rows)
      ensures event.Some? ==> event.value == Successor(hash, Last(old(rows)), FactsOf(input, now))
      ensures event.Some? ==> rows == old(rows) + [event.value]
      ensures event.Some? ==>
        var f := event.value.facts;
        && f.id == input.id && f.actorUserId == input.actorUserId && f.actorDeviceId == Trim(input.actorDeviceId)
        && f.action == Trim(input.action) && f.resourceType == Trim(input.resourceType)
        && f.resourceId == Trim(input.resourceId)
        && f.outcome == (if Blank(input.outcome) then "success" else Trim(input.outcome))
        && f.ipAddress == Trim(input.ipAddress) && f.userAgent == Trim(input.userAgent)
        && f.metadata == input.metadata && f.occurredAt == now
    {
      if Trim(input.action) == "" || Trim(input.resourceType) == "" {
        return None;
      }
      var sequence := 1;
      var previousHash := GENESIS;
      if |rows| > 0 {
        var previous := rows[|rows| - 1];
        sequence := previous.sequence + 1;
        previousHash := previous.eventHash;
      }
      var facts := FactsOf(input, now);
      var appended := Event(sequence, previousHash, facts, hash(Payload(sequence, previousHash, facts)), SHA256);
      rows := rows + [appended];
      event := Some(appended);
    }

    /** `VerifyHashChain`: the first `limit` rows, or all of them when `limit` is not positive. */
    method VerifyHashChain(limit: int)
      returns (valid: bool, checked: nat, breaks: seq<Break>, head: Option<(string, int)>)
      ensures checked == if 0 < limit < |rows| then limit else |rows|
      ensures var w := Verify(hash, rows[..checked]);
              breaks == w.breaks && head == w.head && (valid <==> breaks == [])
    {
      checked := if 0 < limit < |rows| then limit else |rows|;
      var events := rows[..checked];
      valid, breaks, head := true, [], None;
      var previousHash, previousSequence := GENESIS, 0;
      var i := 0;
      while i < |events|
        invariant 0 <= i <= |events|
        invariant Walk(previousHash, previousSequence, breaks, head) == Verify(hash, events[..i])
        invariant valid <==> breaks == []
      {
        var event := events[i];
        VerifyPrefix(hash, events, i);
        i := i + 1;
        var found := CheckEvent(event, previousHash, previousSequence, breaks, head);
        valid := valid && found == [];
        breaks := breaks + found;
        if event.algorithm != SHA256 {
          continue;
        }
        previousHash := event.eventHash;
        previousSequence := event.sequence;
        head := Some((event.eventHash, event.sequence));
      }
      assert events[..i] == events;
    }

    /** The breaks of one event, given what the walk expects of it. */
    method CheckEvent(event: Event, previousHash: string, previousSequence: int,
                      ghost breaks: seq<Break>, ghost head: Option<(string, int)>) returns (found: seq<Break>)
      ensures found == BreaksAt(hash, Walk(previousHash, previousSequence, breaks, head), event)
    {
      found := [];
      if event.algorithm != SHA256 {
        found := found + [Break(event.sequence, event.facts.id, UnsupportedAlgorithm)];
        return;
      }
      if event.sequence != previousSequence + 1 {
        found := found + [Break(event.sequence, event.facts.id, SequenceGap)];
      }
      if event.previousHash != previousHash {
        found := found + [Break(event.sequence, event.facts.id, LinkMismatch)];
      }
      if event.eventHash == "" || event.previousHash == "" {
        found := found + [Break(event.sequence, event.facts.id, MissingHash)];
      } else if event.eventHash != hash(event.Hashed()) {
        found := found + [Break(event.sequence, event.facts.id, HashMismatch)];
      }
    }
  }

  // ---------- what a clean verification means ----------

  /** Event `i` is what appending its facts to the first `i` events would have produced. */
  predicate Linked(hash: Hash, log: seq<Event>, i: nat)
    requires i < |log|
  {
    && log[i] == Event(i + 1, if i == 0 then GENESIS else log[i - 1].eventHash, log[i].facts,
                       hash(log[i].Hashed()), SHA256)
    && log[i].eventHash != ""
  }

  predicate Built(hash: Hash, log: seq<Event>) {
    forall i | 0 <= i < |log| :: Linked(hash, log, i)
  }

  lemma VerifyPrefix(hash: Hash, log: seq<Event>, n: nat)
    requires n < |log|
    ensures Verify(hash, log[..n + 1]) == StepWalk(hash, Verify(hash, log[..n]), log[n])
  {
    assert log[..n + 1][..n] == log[..n];
  }

  /** The last event before position `n` that the chain goes through. */
  function Before(log: seq<Event>, n: nat): Option<Event>
    requires n <= |log|
  {
    if n == 0 then None
    else if log[n - 1].algorithm == "sha256" then Some(log[n - 1])
    else Before(log, n - 1)
  }

  /** What the verifier expects at position `n` is what that event left. */
  lemma {:induction false} WalkStands(hash: Hash, log: seq<Event>, n: nat)
    requires n <= |log|
    ensures var w, p := Verify(hash, log[..n]), Before(log, n);
            && w.previousHash == (if p.None? then "GENESIS" else p.value.eventHash)
            && w.previousSequence == (if p.None? then 0 else p.value.sequence)
            && w.head == if p.None? then None else Some((p.value.eventHash, p.value.sequence))
  {
    if n > 0 {
      WalkStands(hash, log, n - 1);
      VerifyPrefix(hash, log, n - 1);
    }
  }

  /** What is wrong with event `e` in a chain whose last event was `p`. */
  predicate IsWrong(hash: Hash, p: Option<Event>, e: Event, reason: Reason) {
    match reason
    case UnsupportedAlgorithm => e.algorithm != "sha256"
    case SequenceGap => e.algorithm == "sha256" && e.sequence != if p.None? then 1 else p.value.sequence + 1
    case LinkMismatch => e.algorithm == "sha256" && e.previousHash != if p.None? then "GENESIS" else p.value.eventHash
    case MissingHash => e.algorithm == "sha256" && (e.eventHash == "" || e.previousHash == "")
    case HashMismatch =>
      e.algorithm == "sha256" && e.eventHash != "" && e.previousHash != ""
      && e.eventHash != hash(Payload(e.sequence, e.previousHash, e.facts))
  }

  lemma FoundIsWrong(hash: Hash, w: Walk, p: Option<Event>, e: Event, b: Break)
    requires w.previousHash == if p.None? then "GENESIS" else p.value.eventHash
    requires w.previousSequence == if p.None? then 0 else p.value.sequence
    ensures b in BreaksAt(hash, w, e) <==> b == Break(e.sequence, e.facts.id, b.reason) && IsWrong(hash, p, e, b.reason)
  {
  }

  /** In any log, clean or not, each event is reported for exactly what is wrong with it. */
  lemma BreaksMeaning(hash: Hash, log: seq<Event>, n: nat)
    requires n < |log|
    ensures var earlier, found := Verify(hash, log[..n]).breaks, Verify(hash, log[..n + 1]).breaks;
            && earlier <= found
            && forall b :: b in found[|earlier|..] <==>
                 b == Break(log[n].sequence, log[n].facts.id, b.reason)
                 && IsWrong(hash, Before(log, n), log[n], b.reason)
  {
    WalkStands(hash, log, n);
    VerifyPrefix(hash, log, n);
    var w := Verify(hash, log[..n]);
    assert Verify(hash, log[..n + 1]).breaks[|w.breaks|..] == BreaksAt(hash, w, log[n]);
    forall b
      ensures b in BreaksAt(hash, w, log[n])
         <==> b == Break(log[n].sequence, log[n].facts.id, b.reason)
              && IsWrong(hash, Before(log, n), log[n], b.reason)
    {
      FoundIsWrong(hash, w, Before(log, n), log[n], b);
    }
  }

  /** The walk over a built log. */
  function CleanWalk(log: seq<Event>, n: nat): Walk
    requires n <= |log|
  {
    if n == 0 then FRESH else Walk(log[n - 1].eventHash, n, [], Some((log[n - 1].eventHash, n)))
  }

  lemma {:induction false} BuiltIsClean(hash: Hash, log: seq<Event>, n: nat)
    requires Built(hash, log) && n <= |log|
    ensures Verify(hash, log[..n]) == CleanWalk(log, n)
    decreases n
  {
    if n > 0 {
      BuiltIsClean(hash, log, n - 1);
      VerifyPrefix(hash, log, n - 1);
      assert Linked(hash, log, n - 1);
    }
  }

  lemma {:induction false} BreaksOnlyGrow(hash: Hash, log: seq<Event>, n: nat)
    requires n <= |log| && Verify(hash, log).breaks == []
    ensures Verify(hash, log[..n]).breaks == []
    decreases |log| - n
  {
    if n < |log| {
      BreaksOnlyGrow(hash, log, n + 1);
      VerifyPrefix(hash, log, n);
    } else {
      assert log[..n] == log;
    }
  }

  /** The verifier finds no break exactly in the logs that appending produces, whatever the hash: numbered
      from 1 without a hole, each event carrying its predecessor's hash and its own. */
  lemma CleanIsBuilt(hash: Hash, log: seq<Event>)
    ensures Verify(hash, log).breaks == [] <==> Built(hash, log)
  {
    assert log[..|log|] == log;
    if Built(hash, log) {
      BuiltIsClean(hash, log, |log|);
    }
    if Verify(hash, log).breaks == [] {
      CleanPrefixIsBuilt(hash, log, |log|);
    }
  }

  lemma CleanStepIsLinked(hash: Hash, log: seq<Event>, n: nat)
    requires n < |log|
    requires StepWalk(hash, CleanWalk(log, n), log[n]).breaks == []
    ensures Linked(hash, log, n)
    ensures StepWalk(hash, CleanWalk(log, n), log[n]) == CleanWalk(log, n + 1)
  {
  }

  lemma {:induction false} CleanPrefixIsBuilt(hash: Hash, log: seq<Event>, n: nat)
    requires n <= |log| && Verify(hash, log).breaks == []
    ensures forall i | 0 <= i < n :: Linked(hash, log, i)
    ensures Verify(hash, log[..n]) == CleanWalk(log, n)
    decreases n
  {
    if n > 0 {
      CleanPrefixIsBuilt(hash, log, n - 1);
      BreaksOnlyGrow(hash, log, n);
      VerifyPrefix(hash, log, n - 1);
      CleanStepIsLinked(hash, log, n - 1);
    }
  }

  /** Completeness: recording keeps the log built, so the log and each of its prefixes verify. */
  lemma RecordingStaysClean(hash: Hash, log: seq<Event>, facts: Facts, n: nat)
    requires WellBehaved(hash) && Built(hash, log) && n <= |log| + 1
    ensures var log' := log + [Successor(hash, Last(log), facts)];
            Built(hash, log') && Verify(hash, log'[..n]).breaks == []
  {
    var log' := log + [Successor(hash, Last(log), facts)];
    forall i | 0 <= i < |log'| ensures Linked(hash, log', i) {
      if i < |log| {
        assert Linked(hash, log, i);
      } else if i > 0 {
        assert Linked(hash, log, i - 1);
      }
    }
    BuiltIsClean(hash, log', n);
  }

  // ---------- tamper evidence ----------

  /** Two different logs that both verify and report the same head exhibit a collision of the hash: two
      different payloads with one hash. Nothing is assumed of the hash but that it never yields the
      genesis marker. */
  lemma {:induction false} SameHeadGivesCollision(hash: Hash, a: seq<Event>, b: seq<Event>)
    returns (p: Payload, q: Payload)
    requires WellBehaved(hash)
    requires Built(hash, a) && Built(hash, b) && a != [] && b != []
    requires a[|a| - 1].eventHash == b[|b| - 1].eventHash
    requires a != b
    ensures p != q && hash(p) == hash(q)
    decreases |a|
  {
    var x, y := a[|a| - 1], b[|b| - 1];
    assert Linked(hash, a, |a| - 1) && Linked(hash, b, |b| - 1);
    p, q := x.Hashed(), y.Hashed();
    if p == q {
      assert |a| == |b| && x == y;
      var a', b' := a[..|a| - 1], b[..|b| - 1];
      assert a == a' + [x] && b == b' + [y];
      assert a' != [];
      assert a'[|a'| - 1] == a[|a| - 2] && b'[|b'| - 1] == b[|b| - 2];
      BuiltPrefix(hash, a, |a| - 1);
      BuiltPrefix(hash, b, |b| - 1);
      p, q := SameHeadGivesCollision(hash, a', b');
    }
  }

  lemma BuiltPrefix(hash: Hash, log: seq<Event>, n: nat)
    requires Built(hash, log) && n <= |log|
    ensures Built(hash, log[..n])
  {
    forall i | 0 <= i < n ensures Linked(hash, log[..n], i) {
      assert Linked(hash, log, i);
    }
  }

  /** Tamper evidence: with an injective hash, two non-empty logs that verify and report the same head
      hash are the same log, event for event. */
  lemma {:induction false} TamperEvidence(hash: Hash, a: seq<Event>, b: seq<Event>)
    requires WellBehaved(hash) && Injective(hash)
    requires a != [] && b != []
    requires Verify(hash, a).breaks == [] && Verify(hash, b).breaks == []
    requires Verify(hash, a).head.value.0 == Verify(hash, b).head.value.0
    ensures a == b
  {
    CleanIsBuilt(hash, a);
    CleanIsBuilt(hash, b);
    BuiltIsClean(hash, a, |a|);
    BuiltIsClean(hash, b, |b|);
    assert a[..|a|] == a && b[..|b|] == b;
    if a != b {
      var _, _ := SameHeadGivesCollision(hash, a, b);
    }
  }

  // ---------- localisation ----------

  function Resume(hash: Hash, w: Walk, events: seq<Event>): Walk
    decreases |events|
  {
    if events == [] then w else Resume(hash, StepWalk(hash, w, events[0]), events[1..])
  }

  lemma {:induction false} VerifyResumes(hash: Hash, a: seq<Event>, b: seq<Event>)
    ensures Verify(hash, a + b) == Resume(hash, Verify(hash, a), b)
    decreases |b|
  {
    if b == [] {
      assert a + b == a;
    } else {
      assert a + b == (a + [b[0]]) + b[1..];
      assert (a + [b[0]])[..|a|] == a;
      VerifyResumes(hash, a + [b[0]], b[1..]);
    }
  }

  /** A walk that has read event `n` of a built log, whatever it found before, finds nothing after it. */
  lemma {:induction false} TailIsClean(hash: Hash, log: seq<Event>, n: nat, w: Walk)
    requires Built(hash, log) && 0 < n <= |log|
    requires w.previousHash == log[n - 1].eventHash && w.previousSequence == n
    ensures Resume(hash, w, log[n..]).breaks == w.breaks
    decreases |log| - n
  {
    if n < |log| {
      assert Linked(hash, log, n - 1) && Linked(hash, log, n);
      assert BreaksAt(hash, w, log[n]) == [];
      assert log[n..][0] == log[n] && log[n..][1..] == log[n + 1..];
      TailIsClean(hash, log, n + 1, StepWalk(hash, w, log[n]));
    }
  }

  function Edited(log: seq<Event>, k: nat, facts: Facts): seq<Event>
    requires k < |log|
  {
    log[k := log[k].(facts := facts)]
  }

  lemma EditedBreaks(hash: Hash, log: seq<Event>, k: nat, facts: Facts)
    requires Injective(hash) && Built(hash, log) && k < |log|
    ensures BreaksAt(hash, CleanWalk(log, k), log[k].(facts := facts)) ==
            if facts == log[k].facts then [] else [Break(k + 1, facts.id, HashMismatch)]
  {
    assert Linked(hash, log, k);
    if k > 0 {
      assert Linked(hash, log, k - 1);
    }
    var e := log[k].(facts := facts);
    assert e.Hashed() == log[k].Hashed() <==> facts == log[k].facts;
  }

  /** Replacing one event of a built log by one with its number and hash: only that event can break. */
  lemma ReplacementBreaks(hash: Hash, log: seq<Event>, k: nat, e: Event)
    requires Built(hash, log) && k < |log|
    requires e.algorithm == SHA256 && e.eventHash == log[k].eventHash && e.sequence == k + 1
    ensures Verify(hash, log[..k] + ([e] + log[k + 1..])).breaks == BreaksAt(hash, CleanWalk(log, k), e)
  {
    VerifyResumes(hash, log[..k], [e] + log[k + 1..]);
    BuiltIsClean(hash, log, k);
    var w := StepWalk(hash, CleanWalk(log, k), e);
    assert ([e] + log[k + 1..])[1..] == log[k + 1..];
    TailIsClean(hash, log, k + 1, w);
  }

  /** Rewriting the facts of one event is reported as a hash mismatch at that event and nothing else. */
  lemma EditIsLocated(hash: Hash, log: seq<Event>, k: nat, facts: Facts)
    requires Injective(hash) && Built(hash, log) && k < |log|
    ensures Verify(hash, Edited(log, k, facts)).breaks ==
            if facts == log[k].facts then [] else [Break(k + 1, facts.id, HashMismatch)]
  {
    var e := log[k].(facts := facts);
    assert Linked(hash, log, k);
    assert Edited(log, k, facts) == log[..k] + ([e] + log[k + 1..]);
    ReplacementBreaks(hash, log, k, e);
    EditedBreaks(hash, log, k, facts);
  }

  function Without(log: seq<Event>, k: nat): seq<Event>
    requires k < |log|
  {
    log[..k] + log[k + 1..]
  }

  lemma HashesDiffer(hash: Hash, log: seq<Event>, k: nat)
    requires WellBehaved(hash) && Injective(hash) && Built(hash, log) && k < |log|
    ensures log[k].eventHash != if k == 0 then GENESIS else log[k - 1].eventHash
  {
    assert Linked(hash, log, k);
    if k > 0 {
      assert Linked(hash, log, k - 1);
      assert log[k].Hashed() != log[k - 1].Hashed();
    }
  }

  lemma SuccessorBreaks(hash: Hash, log: seq<Event>, k: nat)
    requires WellBehaved(hash) && Injective(hash) && Built(hash, log) && k + 1 < |log|
    ensures BreaksAt(hash, CleanWalk(log, k), log[k + 1]) ==
            [Break(k + 2, log[k + 1].facts.id, SequenceGap), Break(k + 2, log[k + 1].facts.id, LinkMismatch)]
  {
    assert Linked(hash, log, k) && Linked(hash, log, k + 1);
    HashesDiffer(hash, log, k);
  }

  /** Removing one event is reported as a sequence gap and a link mismatch at its successor and nothing
      else; removing the last one leaves a log that verifies (with another head). */
  lemma RemovalIsLocated(hash: Hash, log: seq<Event>, k: nat)
    requires WellBehaved(hash) && Injective(hash) && Built(hash, log) && k < |log|
    ensures Verify(hash, Without(log, k)).breaks ==
            if k == |log| - 1 then []
            else [Break(k + 2, log[k + 1].facts.id, SequenceGap), Break(k + 2, log[k + 1].facts.id, LinkMismatch)]
  {
    BuiltIsClean(hash, log, k);
    VerifyResumes(hash, log[..k], log[k + 1..]);
    if k < |log| - 1 {
      assert Linked(hash, log, k + 1);
      SuccessorBreaks(hash, log, k);
      assert log[k + 1..][0] == log[k + 1] && log[k + 1..][1..] == log[k + 2..];
      TailIsClean(hash, log, k + 2, StepWalk(hash, CleanWalk(log, k), log[k + 1]));
    }
  }

  // ---------- what storage does to the clock ----------

  /** A store that keeps every field but rounds the time of occurrence. */
  function Stored(log: seq<Event>, round: int -> int): seq<Event> {
    seq(|log|, i requires 0 <= i < |log| =>
      log[i].(facts := log[i].facts.(occurredAt := round(log[i].facts.occurredAt))))
  }

  lemma StoredLinkedIff(hash: Hash, log: seq<Event>, round: int -> int, i: nat)
    requires Injective(hash) && i < |log| && Linked(hash, log, i)
    ensures Linked(hash, Stored(log, round), i) <==> round(log[i].facts.occurredAt) == log[i].facts.occurredAt
  {
  }

  /** The hash is taken before storing: a recorded log still verifies after storage exactly when no time
      of occurrence is changed by it. */
  lemma StorageMustKeepTime(hash: Hash, log: seq<Event>, round: int -> int)
    requires Injective(hash) && Built(hash, log)
    ensures Verify(hash, Stored(log, round)).breaks == [] <==>
            forall i | 0 <= i < |log| :: round(log[i].facts.occurredAt) == log[i].facts.occurredAt
  {
    CleanIsBuilt(hash, Stored(log, round));
    forall i | 0 <= i < |log|
      ensures Linked(hash, Stored(log, round), i) <==> round(log[i].facts.occurredAt) == log[i].facts.occurredAt
    {
      StoredLinkedIff(hash, log, round, i);
    }
  }

  // ---------- concurrent appends ----------

  /** Appends under way, each with the last row it has read. The table refuses a second row with one
      sequence number. */
  datatype Race = Race(log: seq<Event>, reading: map<nat, Option<Event>>)

  datatype RaceStep = ReadLast(t: nat) | Append(t: nat, facts: Facts)

  function RaceNext(hash: Hash, r: Race, step: RaceStep): Race {
    match step
    case ReadLast(t) => r.(reading := r.reading[t := Last(r.log)])
    case Append(t, facts) =>
      if t !in r.reading then r
      else
        var e := Successor(hash, r.reading[t], facts);
        if exists f <- r.log :: f.sequence == e.sequence then r.(reading := r.reading - {t})
        else Race(r.log + [e], r.reading - {t})
  }

  function RaceAfter(hash: Hash, r: Race, steps: seq<RaceStep>): Race
    decreases |steps|
  {
    if steps == [] then r else RaceAfter(hash, RaceNext(hash, r, steps[0]), steps[1..])
  }

  /** What an append has read was the last row at some moment. */
  predicate RaceInv(hash: Hash, r: Race) {
    && Built(hash, r.log)
    && forall t <- r.reading ::
         var p := r.reading[t];
         p.None? || (1 <= p.value.sequence <= |r.log| && r.log[p.value.sequence - 1] == p.value)
  }

  lemma AppendWinsIfCurrent(hash: Hash, r: Race, t: nat, facts: Facts)
    requires WellBehaved(hash) && RaceInv(hash, r) && t in r.reading
    ensures var r' := RaceNext(hash, r, Append(t, facts));
            && (r'.log != r.log <==> r.reading[t] == Last(r.log))
            && (r'.log != r.log ==> r'.log == r.log + [Successor(hash, Last(r.log), facts)])
  {
    var p := r.reading[t];
    var e := Successor(hash, p, facts);
    if r.log != [] {
      assert Linked(hash, r.log, |r.log| - 1);
    }
    if p == Last(r.log) {
      forall f <- r.log ensures f.sequence != e.sequence {
        var i :| 0 <= i < |r.log| && r.log[i] == f;
        assert Linked(hash, r.log, i);
      }
      assert r.log + [e] != r.log;
    } else {
      assert Linked(hash, r.log, e.sequence - 1);
      assert r.log[e.sequence - 1].sequence == e.sequence;
      assert r.log[e.sequence - 1] in r.log;
    }
  }

  /** However appends interleave, the log stays one chain: an append whose last row is no longer the last
      is refused by the unique sequence number, so the log never forks and always verifies. */
  lemma {:induction false} RaceNeverForks(hash: Hash, r: Race, steps: seq<RaceStep>)
    requires WellBehaved(hash) && RaceInv(hash, r)
    ensures RaceInv(hash, RaceAfter(hash, r, steps))
    ensures r.log <= RaceAfter(hash, r, steps).log
    ensures Verify(hash, RaceAfter(hash, r, steps).log).breaks == []
    decreases |steps|
  {
    if steps == [] {
      CleanIsBuilt(hash, r.log);
    } else {
      var r' := RaceNext(hash, r, steps[0]);
      RaceStepKeepsInv(hash, r, steps[0]);
      RaceNeverForks(hash, r', steps[1..]);
    }
  }

  lemma RaceStepKeepsInv(hash: Hash, r: Race, step: RaceStep)
    requires WellBehaved(hash) && RaceInv(hash, r)
    ensures RaceInv(hash, RaceNext(hash, r, step))
    ensures r.log <= RaceNext(hash, r, step).log
  {
    if r.log != [] {
      assert Linked(hash, r.log, |r.log| - 1);
    }
    if step.Append? && step.t in r.reading {
      AppendWinsIfCurrent(hash, r, step.t, step.facts);
      if r.reading[step.t] == Last(r.log) {
        RecordingStaysClean(hash, r.log, step.facts, 0);
      }
    }
  }
}

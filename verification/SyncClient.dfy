/** The client side of knowledge sync: a projection folded from pulled events. */
module SyncClient {
  import opened Common
  import opened SyncModel
  import opened SyncHistory

  datatype ClientEntry = ClientEntry(id: string, title: string, status: Status, version: nat, contentHash: Digest)

  type View = map<string, ClientEntry>

  datatype Projection = Projection(entries: View, cursor: nat)

  const EMPTY_PROJECTION := Projection(map[], 0)

  function Project(row: Entry): ClientEntry {
    ClientEntry(row.id, row.title, row.status, row.version, row.contentHash)
  }

  /** What a client would show of an entry table. */
  function ViewOf(t: Table): View {
    map id <- t :: Project(t[id])
  }

  /** What one event does; `None` is the fold giving up. */
  function ApplyEvent(p: Projection, e: Event): Option<Projection> {
    if e.sequence <= p.cursor then Some(p)
    else if e.objectType != OBJECT_KNOWLEDGE then None
    else if !e.payload.KnowledgePayload? || e.payload.entry.id == "" then None
    else
      var incoming := Project(e.payload.entry);
      if incoming.id !in p.entries || incoming.version > p.entries[incoming.id].version
      then Some(Projection(p.entries[incoming.id := incoming], e.sequence))
      else if incoming.version == p.entries[incoming.id].version then
        var here := p.entries[incoming.id];
        if incoming.status != here.status || incoming.contentHash != here.contentHash then None
        else Some(p.(cursor := e.sequence))
      else Some(p.(cursor := e.sequence))
  }

  datatype Fold = Fold(projection: Projection, failed: bool)

  /** The whole batch: the fold stops where an event makes it give up. */
  function ApplyAll(p: Projection, events: seq<Event>): Fold
    decreases |events|
  {
    if events == [] then Fold(p, false)
    else
      match ApplyEvent(p, events[0])
      case None => Fold(p, true)
      case Some(q) => ApplyAll(q, events[1..])
  }

  lemma {:induction false} ApplyAllAppend(p: Projection, a: seq<Event>, b: seq<Event>)
    ensures ApplyAll(p, a + b) ==
            var f := ApplyAll(p, a);
            if f.failed then f else ApplyAll(f.projection, b)
    decreases |a|
  {
    if a == [] {
      assert a + b == b;
    } else {
      assert (a + b)[1..] == a[1..] + b;
      match ApplyEvent(p, a[0])
      case None =>
      case Some(q) => ApplyAllAppend(q, a[1..], b);
    }
  }

  /** What one event may do: one already passed is skipped; an event of another family, one without an entry, and one
      that contradicts the entry held in the same version stop the fold; any other moves the cursor to its number, and
      its entry is the newer of the two versions, all others being left alone. */
  lemma ApplyMeaning(p: Projection, e: Event)
    ensures e.sequence <= p.cursor ==> ApplyEvent(p, e) == Some(p)
    ensures var q := ApplyEvent(p, e);
            e.sequence > p.cursor ==>
            && (q.None? <==>
                  || e.objectType != "knowledge" || e.payload.OtherPayload? || e.payload.entry.id == ""
                  || var row := e.payload.entry;
                     row.id in p.entries && row.version == p.entries[row.id].version
                     && (row.status != p.entries[row.id].status || row.contentHash != p.entries[row.id].contentHash))
            && (q.Some? ==>
                  var row := e.payload.entry;
                  && q.value.cursor == e.sequence
                  && q.value.entries
                     == p.entries[row.id := if row.id in p.entries && p.entries[row.id].version >= row.version
                                            then p.entries[row.id]
                                            else ClientEntry(row.id, row.title, row.status, row.version,
                                                             row.contentHash)])
  {
  }

  /** Whatever is delivered, the cursor never goes back, and no entry disappears or gets an older version. */
  lemma {:induction false} ProjectionAdvances(p: Projection, events: seq<Event>, id: string)
    ensures var q := ApplyAll(p, events).projection;
            && p.cursor <= q.cursor
            && (id in p.entries ==> id in q.entries && p.entries[id].version <= q.entries[id].version)
    decreases |events|
  {
    if events != [] {
      var q := ApplyEvent(p, events[0]);
      if q.Some? {
        ProjectionAdvances(q.value, events[1..], id);
      }
    }
  }

  /** A batch that was applied without failing lies behind the cursor. */
  lemma {:induction false} AppliedIsBehind(p: Projection, events: seq<Event>)
    requires !ApplyAll(p, events).failed
    ensures forall e | e in events :: e.sequence <= ApplyAll(p, events).projection.cursor
    decreases |events|
  {
    if events != [] {
      var q := ApplyEvent(p, events[0]).value;
      AppliedIsBehind(q, events[1..]);
      ProjectionAdvances(q, events[1..], "");
    }
  }

  lemma {:induction false} BehindIsSkipped(p: Projection, events: seq<Event>, rest: seq<Event>)
    requires forall e | e in events :: e.sequence <= p.cursor
    ensures ApplyAll(p, events + rest) == ApplyAll(p, rest)
    decreases |events|
  {
    if events == [] {
      assert events + rest == rest;
    } else {
      assert (events + rest)[1..] == events[1..] + rest;
      assert events[0] in events;
      BehindIsSkipped(p, events[1..], rest);
    }
  }

  lemma {:induction false} RedeliveryOf(p: Projection, done: seq<Event>, left: seq<Event>)
    requires !ApplyAll(p, done).failed
    ensures ApplyAll(ApplyAll(p, done + left).projection, done + left) == ApplyAll(p, done + left)
    decreases |left|
  {
    var q := ApplyAll(p, done).projection;
    ApplyAllAppend(p, done, left);
    AppliedIsBehind(p, done);
    if left == [] {
      BehindIsSkipped(q, done, []);
      assert done + left == done + [];
    } else if ApplyEvent(q, left[0]).None? {
      BehindIsSkipped(q, done, left);
    } else {
      ApplyAllAppend(p, done, [left[0]]);
      assert [left[0]][1..] == [];
      assert done + left == (done + [left[0]]) + left[1..];
      RedeliveryOf(p, done + [left[0]], left[1..]);
    }
  }

  /** Delivering a batch twice, whatever is in it, is delivering it once: what was applied is skipped, and a fold that
      failed fails at the same event again. */
  lemma RedeliveryChangesNothing(p: Projection, events: seq<Event>)
    ensures ApplyAll(ApplyAll(p, events).projection, events) == ApplyAll(p, events)
  {
    RedeliveryOf(p, [], events);
    assert [] + events == events;
  }

  /** The projection object of a device. */
  class KnowledgeProjection {
    var entries: View
    var cursor: nat

    function Value(): Projection reads this { Projection(entries, cursor) }

    constructor ()
      ensures Value() == EMPTY_PROJECTION
    {
      entries, cursor := map[], 0;
    }

    method Apply(events: seq<Event>) returns (failed: bool)
      modifies this
      ensures Fold(Value(), failed) == ApplyAll(old(Value()), events)
    {
      var i := 0;
      while i < |events|
        invariant 0 <= i <= |events|
        invariant ApplyAll(Value(), events[i..]) == ApplyAll(old(Value()), events)
      {
        var event := events[i];
        assert events[i..][0] == event && events[i..][1..] == events[i + 1..];
        i := i + 1;
        if event.sequence <= cursor {
          continue;
        }
        if event.objectType != OBJECT_KNOWLEDGE {
          return true;
        }
        if !event.payload.KnowledgePayload? || event.payload.entry.id == "" {
          return true;
        }
        var incoming := Project(event.payload.entry);
        if incoming.id !in entries {
          entries := entries[incoming.id := incoming];
        } else {
          var here := entries[incoming.id];
          if incoming.version > here.version {
            entries := entries[incoming.id := incoming];
          } else if incoming.version == here.version {
            if incoming.status != here.status || incoming.contentHash != here.contentHash {
              return true;
            }
          }
        }
        cursor := event.sequence;
      }
      failed := false;
    }
  }

  // ---------- the fold follows the table ----------

  /** The projection of a device that has seen exactly the first `n` events. */
  function At(h: seq<Event>, n: nat): Projection
    requires n <= |h|
  {
    Projection(ViewOf(TableOf(h[..n])), n)
  }

  lemma FoldStep(h: seq<Event>, n: nat)
    requires Chain(h) && n < |h| && IsKnowledge(h[n])
    ensures ApplyEvent(At(h, n), h[n]) == Some(At(h, n + 1))
  {
    var t := TableOf(h[..n]);
    TableStep(h, n);
    assert Follows(t, h[n]);
    var row := h[n].payload.entry;
    assert TableOf(h[..n + 1]) == t[row.id := row];
    assert ViewOf(t[row.id := row]) == ViewOf(t)[row.id := Project(row)];
    if row.id in t && t[row.id].status == Deleted {
      assert t[row.id := row] == t;
    }
  }

  lemma FoldHead(h: seq<Event>, n: nat, a: nat, b: nat)
    requires Chain(h) && a <= n < |h| + 1 && a < b <= |h|
    ensures ApplyAll(At(h, n), h[a..b]) ==
            if a < n then ApplyAll(At(h, n), h[a + 1..b])
            else if IsKnowledge(h[a]) then ApplyAll(At(h, n + 1), h[a + 1..b])
            else Fold(At(h, n), true)
  {
    var batch := h[a..b];
    assert batch[0] == h[a] && batch[1..] == h[a + 1..b];
    assert h[a].sequence == a + 1;
    assert Follows(TableOf(h[..a]), h[a]);
    if a == n && IsKnowledge(h[a]) {
      FoldStep(h, a);
    }
  }

  /** A batch of consecutive events `h[a..b]` delivered to a device at `n`, with no hole before it
      (`a <= n`): what the device had already seen is skipped and the rest is applied in order. The fold
      fails only at an event of another family, right before it; otherwise the device is at `max(n, b)`. */
  lemma {:induction false} FoldSegment(h: seq<Event>, n: nat, a: nat, b: nat)
    requires Chain(h) && a <= n <= |h| && a <= b <= |h|
    ensures var f := ApplyAll(At(h, n), h[a..b]);
            var k := f.projection.cursor;
            && n <= k <= |h|
            && f.projection == At(h, k)
            && (if f.failed then k < b && !IsKnowledge(h[k]) else k == if n < b then b else n)
    decreases b - a
  {
    if a < b {
      FoldHead(h, n, a, b);
      if a < n {
        FoldSegment(h, n, a + 1, b);
      } else if IsKnowledge(h[a]) {
        FoldSegment(h, n + 1, a + 1, b);
      }
    }
  }

  /** A batch of knowledge events never makes the fold fail. */
  lemma KnowledgeNeverFails(h: seq<Event>, n: nat, a: nat, b: nat)
    requires Chain(h) && a <= n <= |h| && a <= b <= |h|
    requires forall i | n <= i < b :: IsKnowledge(h[i])
    ensures !ApplyAll(At(h, n), h[a..b]).failed
  {
    FoldSegment(h, n, a, b);
  }
}

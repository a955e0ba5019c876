/** Devices that pull, apply and acknowledge while calls commit and cleanup runs. Responses may arrive late,
    out of order or more than once; an acknowledgement reads the stored cursor and writes it back in two
    steps. */
module SyncReplication {
  import opened Common
  import opened SyncModel
  import opened SyncHistory
  import opened SyncClient
  import opened SyncPaging
  import opened SyncTransactions

  /** `lagged` records that the device once pulled when cleanup had already removed an event it had not
      seen; `inbox` holds every response ever sent to it; `acks` the acknowledgements under way, each a
      cursor read and a sequence to store. */
  datatype Device = Device(
    projection: Projection,
    failed: bool,
    lagged: bool,
    inbox: set<seq<Event>>,
    acks: set<(nat, nat)>)

  datatype World = World(server: State, devices: map<string, Device>, cursors: map<string, nat>)

  const START := World(INIT, map[], map[])

  datatype Move =
    | Server(step: Step)
    | Join(d: string)
    | Pull(d: string, explicit: bool, requested: int)
    | Deliver(d: string, events: seq<Event>)
    | AckRead(d: string)
    | AckWrite(d: string, ack: (nat, nat))

  function CursorOf(w: World, d: string): nat {
    if d in w.cursors then w.cursors[d] else 0
  }

  function Answer(w: World, d: string, explicit: bool, requested: int): Reply
    requires d in w.devices
  {
    PullReply(w.server.db.log, CursorOf(w, d),
              if explicit then Some(w.devices[d].projection.cursor) else None, requested)
  }

  predicate CanMove(w: World, m: Move) {
    match m
    case Server(step) => Enabled(w.server, step) && Distinct(w.server, step)
    case Join(d) => d !in w.devices
    case Pull(d, _, _) => d in w.devices
    case Deliver(d, events) => d in w.devices && events in w.devices[d].inbox && !w.devices[d].failed
    case AckRead(d) => d in w.devices && w.devices[d].projection.cursor > 0
    case AckWrite(d, ack) => d in w.devices && ack in w.devices[d].acks
  }

  function Moved(w: World, m: Move): World
    requires CanMove(w, m)
  {
    match m
    case Server(step) => w.(server := Next(w.server, step))
    case Join(d) => w.(devices := w.devices[d := Device(EMPTY_PROJECTION, false, false, {}, {})])
    case Pull(d, explicit, requested) =>
      var dev := w.devices[d];
      w.(devices := w.devices[d := dev.(
           inbox := dev.inbox + {Answer(w, d, explicit, requested).events},
           lagged := dev.lagged || dev.projection.cursor < Removed(w.server))])
    case Deliver(d, events) =>
      var f := ApplyAll(w.devices[d].projection, events);
      w.(devices := w.devices[d := w.devices[d].(projection := f.projection, failed := f.failed)])
    case AckRead(d) =>
      var dev := w.devices[d];
      w.(devices := w.devices[d := dev.(acks := dev.acks + {(CursorOf(w, d), dev.projection.cursor)})])
    case AckWrite(d, ack) =>
      w.(cursors := w.cursors[d := if ack.1 < ack.0 then ack.0 else ack.1])
  }

  // ---------- invariant ----------

  /** `r` is a run of consecutive events of `h` with no hole between it and the first `n`. */
  predicate Contiguous(h: seq<Event>, n: nat, r: seq<Event>) {
    r != [] ==>
      && 1 <= r[0].sequence <= n + 1
      && r[0].sequence - 1 + |r| <= |h|
      && r == h[r[0].sequence - 1..r[0].sequence - 1 + |r|]
  }

  predicate Numbers(r: seq<Event>, limit: nat) {
    forall e <- r :: e.sequence <= limit
  }

  predicate DeviceInv(h: seq<Event>, cursor: nat, dev: Device) {
    var n := dev.projection.cursor;
    && cursor <= n <= |h|
    && (forall a <- dev.acks :: a.0 <= n && a.1 <= n)
    && (forall r <- dev.inbox :: Numbers(r, |h|))
    && (!dev.lagged ==>
          && dev.projection == At(h, n)
          && (dev.failed ==> n < |h| && !IsKnowledge(h[n]))
          && (forall r <- dev.inbox :: Contiguous(h, n, r)))
  }

  predicate WorldInv(w: World) {
    && Inv(w.server)
    && (forall d <- w.cursors :: d in w.devices)
    && (forall d <- w.devices :: DeviceInv(w.server.history, CursorOf(w, d), w.devices[d]))
  }

  lemma {:induction false} FoldMovesForward(p: Projection, events: seq<Event>, limit: nat)
    requires Numbers(events, limit) && p.cursor <= limit
    ensures p.cursor <= ApplyAll(p, events).projection.cursor <= limit
    decreases |events|
  {
    if events != [] {
      match ApplyEvent(p, events[0])
      case None =>
      case Some(q) => FoldMovesForward(q, events[1..], limit);
    }
  }

  lemma HistoryGrows(h: seq<Event>, h': seq<Event>, cursor: nat, dev: Device)
    requires h <= h' && DeviceInv(h, cursor, dev)
    ensures DeviceInv(h', cursor, dev)
  {
    var n := dev.projection.cursor;
    assert h'[..n] == h[..n];
    if !dev.lagged {
      forall r: seq<Event> | r in dev.inbox ensures Contiguous(h', n, r) {
        assert Contiguous(h, n, r);
        if r != [] {
          var a := r[0].sequence - 1;
          assert h'[a..a + |r|] == h[a..a + |r|];
        }
      }
    }
  }

  // ---------- what a pull answers ----------

  lemma {:induction false} NumberedAscends(log: seq<Event>, base: nat)
    requires forall i | 0 <= i < |log| :: log[i].sequence == base + 1 + i
    ensures Ascending(log) && Above(log, base)
    decreases |log|
  {
    if log != [] {
      var rest := log[1..];
      forall i | 0 <= i < |rest| ensures rest[i].sequence == base + 1 + 1 + i {
        assert rest[i] == log[i + 1];
      }
      NumberedAscends(rest, base + 1);
      forall e <- log ensures e.sequence > base {
        assert e == log[0] || e in rest;
      }
    }
  }

  lemma LogAscends(h: seq<Event>, r: nat)
    requires NumberedFromOne(h) && r <= |h|
    ensures Ascending(h[r..]) && Above(h[r..], r)
  {
    NumberedAscends(h[r..], r);
  }

  function Max(a: nat, b: nat): nat {
    if a < b then b else a
  }

  /** What is left of the log after number `n` is the history from there, or from where retention starts. */
  lemma SinceInHistory(h: seq<Event>, r: nat, n: nat)
    requires NumberedFromOne(h) && r <= |h| && n <= |h|
    ensures Since(h[r..], n) == h[Max(n, r)..]
  {
    var log := h[r..];
    LogAscends(h, r);
    if n <= r {
      assert Above(log, n);
      SinceAll(log, n);
    } else {
      assert log[n - r - 1].sequence == n;
      SinceRow(log, n - r);
      assert log[n - r..] == h[n..];
    }
  }

  /** A reply is a run of the history from the start asked for, or from where retention starts; without
      `has_more` it runs to the end. */
  lemma ReplyIsSlice(h: seq<Event>, r: nat, cursor: nat, after: Option<nat>, requested: int)
    requires NumberedFromOne(h) && r <= |h|
    requires (if after.Some? then after.value else cursor) <= |h|
    ensures var from := Max(if after.Some? then after.value else cursor, r);
            var reply := PullReply(h[r..], cursor, after, requested);
            && from + |reply.events| <= |h|
            && reply.events == h[from..from + |reply.events|]
            && (!reply.hasMore && requested != 500 ==> from + |reply.events| == |h|)
  {
    LogAscends(h, r);
    OnePage(h[r..], cursor, after, requested);
    SinceInHistory(h, r, if after.Some? then after.value else cursor);
  }

  lemma SliceIsContiguous(h: seq<Event>, from: nat, k: nat, n: nat)
    requires NumberedFromOne(h) && from + k <= |h|
    ensures Numbers(h[from..from + k], |h|)
    ensures from <= n ==> Contiguous(h, n, h[from..from + k])
    ensures k > 0 ==> h[from..from + k][k - 1].sequence == from + k
  {
  }

  lemma ReplyIsContiguous(h: seq<Event>, r: nat, cursor: nat, n: nat, explicit: bool, requested: int)
    requires NumberedFromOne(h) && r <= |h| && cursor <= n <= |h|
    ensures var events := PullReply(h[r..], cursor, if explicit then Some(n) else None, requested).events;
            Numbers(events, |h|) && (n >= r ==> Contiguous(h, n, events))
  {
    var after := if explicit then Some(n) else None;
    var events := PullReply(h[r..], cursor, after, requested).events;
    var from := Max(if explicit then n else cursor, r);
    ReplyIsSlice(h, r, cursor, after, requested);
    assert events == h[from..from + |events|];
    SliceIsContiguous(h, from, |events|, n);
  }

  // ---------- every move keeps the invariant ----------

  /** `f` leaves a device that was at `n` in order: further along the history, and stopped at most by an
      event of another family. */
  predicate InOrder(h: seq<Event>, n: nat, f: Fold) {
    var k := f.projection.cursor;
    n <= k <= |h| && f.projection == At(h, k) && (f.failed ==> k < |h| && !IsKnowledge(h[k]))
  }

  lemma SegmentInOrder(h: seq<Event>, n: nat, a: nat, b: nat)
    requires Chain(h) && a <= n <= |h| && a <= b <= |h|
    ensures InOrder(h, n, ApplyAll(At(h, n), h[a..b]))
  {
    FoldSegment(h, n, a, b);
  }

  lemma DeliveryInOrder(h: seq<Event>, n: nat, events: seq<Event>)
    requires Chain(h) && n <= |h| && Contiguous(h, n, events)
    ensures InOrder(h, n, ApplyAll(At(h, n), events))
  {
    if events != [] {
      var a := events[0].sequence - 1;
      SegmentInOrder(h, n, a, a + |events|);
    }
  }

  lemma DeliveryKeepsDevice(h: seq<Event>, cursor: nat, dev: Device, events: seq<Event>)
    requires Chain(h) && DeviceInv(h, cursor, dev) && events in dev.inbox && !dev.failed
    ensures var f := ApplyAll(dev.projection, events);
            DeviceInv(h, cursor, dev.(projection := f.projection, failed := f.failed))
  {
    var n := dev.projection.cursor;
    FoldMovesForward(dev.projection, events, |h|);
    if !dev.lagged {
      DeliveryInOrder(h, n, events);
      assert forall r <- dev.inbox :: Contiguous(h, n, r);
    }
  }

  lemma ServerMoveKeepsInv(w: World, step: Step)
    requires WorldInv(w) && CanMove(w, Server(step))
    ensures WorldInv(Moved(w, Server(step)))
  {
    StepKeepsInv(w.server, step);
    StepKeepsNumbered(w.server, step);
    var h' := Next(w.server, step).history;
    forall d <- w.devices ensures DeviceInv(h', CursorOf(w, d), w.devices[d]) {
      HistoryGrows(w.server.history, h', CursorOf(w, d), w.devices[d]);
    }
  }

  /** Moves of one device. */
  predicate OnlyDeviceMoved(w: World, w': World, d: string) {
    && w'.server == w.server
    && w'.devices.Keys == w.devices.Keys + {d}
    && w'.cursors.Keys <= w.cursors.Keys + {d}
    && (forall e <- w.devices :: e != d ==> w'.devices[e] == w.devices[e] && CursorOf(w', e) == CursorOf(w, e))
  }

  lemma DeviceMoveKeepsInv(w: World, w': World, d: string)
    requires WorldInv(w) && OnlyDeviceMoved(w, w', d)
    requires DeviceInv(w.server.history, CursorOf(w', d), w'.devices[d])
    ensures WorldInv(w')
  {
    forall e <- w'.devices ensures DeviceInv(w'.server.history, CursorOf(w', e), w'.devices[e]) {
      if e != d {
        assert e in w.devices;
      }
    }
  }

  lemma PullKeepsDevice(w: World, d: string, explicit: bool, requested: int)
    requires WorldInv(w) && d in w.devices
    ensures DeviceInv(w.server.history, CursorOf(w, d), Moved(w, Pull(d, explicit, requested)).devices[d])
  {
    var dev := w.devices[d];
    assert DeviceInv(w.server.history, CursorOf(w, d), dev);
    ReplyIsContiguous(w.server.history, Removed(w.server), CursorOf(w, d), dev.projection.cursor, explicit, requested);
  }

  lemma JoinKeepsDevice(h: seq<Event>)
    ensures DeviceInv(h, 0, Device(EMPTY_PROJECTION, false, false, {}, {}))
  {
  }

  lemma AckKeepsDevice(h: seq<Event>, cursor: nat, dev: Device, ack: (nat, nat))
    requires DeviceInv(h, cursor, dev)
    ensures DeviceInv(h, cursor, dev.(acks := dev.acks + {(cursor, dev.projection.cursor)}))
    ensures ack in dev.acks ==> DeviceInv(h, if ack.1 < ack.0 then ack.0 else ack.1, dev)
  {
  }

  lemma AckKeepsInv(w: World, m: Move)
    requires WorldInv(w) && CanMove(w, m) && (m.AckRead? || m.AckWrite?)
    ensures WorldInv(Moved(w, m))
  {
    AckKeepsDevice(w.server.history, CursorOf(w, m.d), w.devices[m.d], if m.AckWrite? then m.ack else (0, 0));
    DeviceMoveKeepsInv(w, Moved(w, m), m.d);
  }

  lemma PullKeepsInv(w: World, m: Move)
    requires WorldInv(w) && CanMove(w, m) && m.Pull?
    ensures WorldInv(Moved(w, m))
  {
    PullKeepsDevice(w, m.d, m.explicit, m.requested);
    DeviceMoveKeepsInv(w, Moved(w, m), m.d);
  }

  lemma DeliverKeepsInv(w: World, m: Move)
    requires WorldInv(w) && CanMove(w, m) && m.Deliver?
    ensures WorldInv(Moved(w, m))
  {
    DeliveryKeepsDevice(w.server.history, CursorOf(w, m.d), w.devices[m.d], m.events);
    DeviceMoveKeepsInv(w, Moved(w, m), m.d);
  }

  lemma JoinKeepsInv(w: World, m: Move)
    requires WorldInv(w) && CanMove(w, m) && m.Join?
    ensures WorldInv(Moved(w, m))
  {
    JoinKeepsDevice(w.server.history);
    DeviceMoveKeepsInv(w, Moved(w, m), m.d);
  }

  lemma MoveKeepsInv(w: World, m: Move)
    requires WorldInv(w) && CanMove(w, m)
    ensures WorldInv(Moved(w, m))
  {
    match m
    case Server(step) => ServerMoveKeepsInv(w, step);
    case Join(_) => JoinKeepsInv(w, m);
    case Pull(_, _, _) => PullKeepsInv(w, m);
    case Deliver(_, _) => DeliverKeepsInv(w, m);
    case AckRead(_) => AckKeepsInv(w, m);
    case AckWrite(_, _) => AckKeepsInv(w, m);
  }

  // ---------- runs ----------

  predicate Moves(w: World, moves: seq<Move>)
    decreases |moves|
  {
    moves != [] ==> CanMove(w, moves[0]) && Moves(Moved(w, moves[0]), moves[1..])
  }

  function Later(w: World, moves: seq<Move>): World
    requires Moves(w, moves)
    decreases |moves|
  {
    if moves == [] then w else Later(Moved(w, moves[0]), moves[1..])
  }

  lemma {:induction false} RunsKeepWorldInv(w: World, moves: seq<Move>)
    requires WorldInv(w) && Moves(w, moves)
    ensures var w' := Later(w, moves);
            WorldInv(w') && w.server.history <= w'.server.history
    decreases |moves|
  {
    if moves != [] {
      MoveKeepsInv(w, moves[0]);
      if moves[0].Server? {
        StepKeepsNumbered(w.server, moves[0].step);
      }
      RunsKeepWorldInv(Moved(w, moves[0]), moves[1..]);
    }
  }

  lemma CursorDecidesView(w: World, w': World, d: string)
    requires WorldInv(w) && WorldInv(w') && w.server.history <= w'.server.history
    requires d in w'.devices && !w'.devices[d].lagged
    requires w'.devices[d].projection.cursor == w.server.db.next - 1
    ensures w'.devices[d].projection.entries == ViewOf(w.server.db.entries)
  {
    assert DeviceInv(w'.server.history, CursorOf(w', d), w'.devices[d]);
    assert w'.server.history[..|w.server.history|] == w.server.history;
  }

  /** Snapshot-consistent replication. Take any run, any moment `w` of it and any later moment `w'`: a
      device that cleanup has not overtaken, whose cursor at `w'` is the last number given out at `w`,
      shows exactly the entry table as it stood at `w`. With `later` empty: a device that has applied
      everything shows the current table. */
  lemma ReplicationIsSnapshotConsistent(before: seq<Move>, w: World, later: seq<Move>, w': World, d: string)
    requires Moves(START, before) && w == Later(START, before)
    requires Moves(w, later) && w' == Later(w, later)
    requires d in w'.devices && !w'.devices[d].lagged
    requires w'.devices[d].projection.cursor == w.server.db.next - 1
    ensures w'.devices[d].projection.entries == ViewOf(w.server.db.entries)
  {
    InitInv();
    RunsKeepWorldInv(START, before);
    RunsKeepWorldInv(w, later);
    CursorDecidesView(w, w', d);
  }

  /** A device never gives up on knowledge events: it has failed only if the next event it needs belongs
      to another object family. */
  lemma FailsOnlyOnOtherFamilies(moves: seq<Move>, d: string)
    requires Moves(START, moves)
    requires var w := Later(START, moves); d in w.devices && !w.devices[d].lagged && w.devices[d].failed
    ensures var w := Later(START, moves);
            var n := w.devices[d].projection.cursor;
            n < |w.server.history| && w.server.history[n].objectType != OBJECT_KNOWLEDGE
  {
    InitInv();
    RunsKeepWorldInv(START, moves);
    var w := Later(START, moves);
    assert DeviceInv(w.server.history, CursorOf(w, d), w.devices[d]);
    var n := w.devices[d].projection.cursor;
    assert Follows(TableOf(w.server.history[..n]), w.server.history[n]);
  }

  lemma CursorGrows(w: World, m: Move, d: string)
    requires WorldInv(w) && CanMove(w, m) && d in w.devices
    ensures d in Moved(w, m).devices
    ensures w.devices[d].projection.cursor <= Moved(w, m).devices[d].projection.cursor
  {
    if m.Deliver? {
      assert DeviceInv(w.server.history, CursorOf(w, m.d), w.devices[m.d]);
      FoldMovesForward(w.devices[m.d].projection, m.events, |w.server.history|);
    }
  }

  lemma {:induction false} CursorsOnlyGrow(w: World, moves: seq<Move>, d: string)
    requires WorldInv(w) && Moves(w, moves) && d in w.devices
    ensures d in Later(w, moves).devices
    ensures w.devices[d].projection.cursor <= Later(w, moves).devices[d].projection.cursor
    decreases |moves|
  {
    if moves != [] {
      MoveKeepsInv(w, moves[0]);
      CursorGrows(w, moves[0], d);
      CursorsOnlyGrow(Moved(w, moves[0]), moves[1..], d);
    }
  }

  lemma SliceDrains(h: seq<Event>, from: nat, events: seq<Event>, h': seq<Event>, n: nat)
    requires Chain(h') && h <= h' && from <= |h| && events == h[from..]
    requires from <= n <= |h'|
    ensures var f := ApplyAll(At(h', n), events); f.failed || f.projection.cursor >= |h|
  {
    assert events == h'[from..from + |events|];
    FoldSegment(h', n, from, from + |events|);
  }

  /** A pull answered without `has_more` drains the log: once it is applied, whenever that happens, the
      device has everything that was committed when it pulled. `w` is the moment of the pull, `w1` any
      later moment at which the answer is applied. */
  lemma DrainingPull(w: World, d: string, explicit: bool, requested: int, between: seq<Move>, w1: World)
    requires WorldInv(w) && d in w.devices && requested != 500
    requires !w.devices[d].lagged && w.devices[d].projection.cursor >= Removed(w.server)
    requires !Answer(w, d, explicit, requested).hasMore
    requires Moves(Moved(w, Pull(d, explicit, requested)), between)
    requires w1 == Later(Moved(w, Pull(d, explicit, requested)), between)
    requires d in w1.devices && !w1.devices[d].lagged
    ensures var f := ApplyAll(w1.devices[d].projection, Answer(w, d, explicit, requested).events);
            f.failed || f.projection.cursor >= w.server.db.next - 1
  {
    var w0 := Moved(w, Pull(d, explicit, requested));
    MoveKeepsInv(w, Pull(d, explicit, requested));
    RunsKeepWorldInv(w0, between);
    CursorsOnlyGrow(w0, between, d);
    assert DeviceInv(w.server.history, CursorOf(w, d), w.devices[d]);
    assert DeviceInv(w1.server.history, CursorOf(w1, d), w1.devices[d]);
    ReplyDrains(w.server.history, Removed(w.server), CursorOf(w, d), w.devices[d].projection.cursor,
                explicit, requested, w1.server.history, w1.devices[d].projection.cursor);
  }

  lemma ReplyDrains(h: seq<Event>, r: nat, cursor: nat, n: nat, explicit: bool, requested: int, h': seq<Event>, n': nat)
    requires NumberedFromOne(h) && Chain(h') && h <= h' && cursor <= n <= |h| && r <= n <= n' <= |h'|
    requires requested != 500 && !PullReply(h[r..], cursor, if explicit then Some(n) else None, requested).hasMore
    ensures var reply := PullReply(h[r..], cursor, if explicit then Some(n) else None, requested);
            var f := ApplyAll(At(h', n'), reply.events);
            f.failed || f.projection.cursor >= |h|
  {
    var after := if explicit then Some(n) else None;
    var events := PullReply(h[r..], cursor, after, requested).events;
    var from := Max(if explicit then n else cursor, r);
    ReplyIsSlice(h, r, cursor, after, requested);
    assert from + |events| == |h|;
    assert h[from..from + |events|] == h[from..];
    SliceDrains(h, from, events, h', n');
  }
}

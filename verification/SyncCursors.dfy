/** The cursor the server stores for a device. Acknowledging reads it, takes the larger number and writes it back,
    without a lock in between. */
module SyncCursors {
  import opened Common
  import opened SyncModel
  import opened SyncHistory
  import opened SyncClient
  import opened SyncPaging
  import opened SyncTransactions
  import opened SyncCalls
  import opened SyncReplication

  /** A write takes the stored cursor back exactly if both numbers it chooses from are below it by then. */
  lemma AckGoesBackIff(w: World, d: string, ack: (nat, nat))
    requires CanMove(w, AckWrite(d, ack))
    ensures CursorOf(Moved(w, AckWrite(d, ack)), d) < CursorOf(w, d)
       <==> ack.0 < CursorOf(w, d) && ack.1 < CursorOf(w, d)
  {
  }

  // ---------- acknowledgements that do not overlap ----------

  /** The acknowledgement of `d` that has read last and not written. */
  function OpenAck(w: World, d: string, m: Move, open: Option<(nat, nat)>): Option<(nat, nat)>
    requires CanMove(w, m)
  {
    match m
    case AckRead(x) => if x == d then Some((CursorOf(w, d), w.devices[d].projection.cursor)) else open
    case AckWrite(x, _) => if x == d then None else open
    case _ => open
  }

  /** Of the acknowledgements of `d` only the one that has read last writes, once. */
  predicate NoOverlap(w: World, d: string, moves: seq<Move>, open: Option<(nat, nat)>)
    requires Moves(w, moves)
    decreases |moves|
  {
    moves != [] ==>
      && (moves[0].AckWrite? && moves[0].d == d ==> open == Some(moves[0].ack))
      && NoOverlap(Moved(w, moves[0]), d, moves[1..], OpenAck(w, d, moves[0], open))
  }

  /** Then the stored cursor never goes back, whatever else happens. */
  lemma {:induction false} StoredCursorOnlyGrows(w: World, d: string, moves: seq<Move>, open: Option<(nat, nat)>)
    requires Moves(w, moves) && NoOverlap(w, d, moves, open)
    requires open.Some? ==> open.value.0 == CursorOf(w, d)
    ensures CursorOf(w, d) <= CursorOf(Later(w, moves), d)
    decreases |moves|
  {
    if moves != [] {
      StoredCursorOnlyGrows(Moved(w, moves[0]), d, moves[1..], OpenAck(w, d, moves[0], open));
    }
  }

  // ---------- a run in which it does ----------

  /** `ms` leads from `w` to `w'`, for any moves and worlds. */
  predicate Path<W(==), M>(can: (W, M) -> bool, go: (W, M) -> W, w: W, ms: seq<M>, w': W)
    decreases |ms|
  {
    if ms == [] then w' == w else can(w, ms[0]) && Path(can, go, go(w, ms[0]), ms[1..], w')
  }

  lemma {:induction false} PathOn<W, M>(
      can: (W, M) -> bool, go: (W, M) -> W, w: W, a: seq<M>, w1: W, b: seq<M>, w2: W)
    requires Path(can, go, w, a, w1) && Path(can, go, w1, b, w2)
    ensures Path(can, go, w, a + b, w2)
    decreases |a|
  {
    if a == [] {
      assert a + b == b;
    } else {
      PathOn(can, go, go(w, a[0]), a[1..], w1, b, w2);
      assert (a + b)[1..] == a[1..] + b;
    }
  }

  function Tried(w: World, m: Move): World {
    if CanMove(w, m) then Moved(w, m) else w
  }

  predicate Reaches(w: World, moves: seq<Move>, w': World) {
    Path(CanMove, Tried, w, moves, w')
  }

  lemma {:induction false} ReachesMeans(w: World, moves: seq<Move>, w': World)
    requires Reaches(w, moves, w')
    ensures Moves(w, moves) && Later(w, moves) == w'
    decreases |moves|
  {
    if moves != [] {
      ReachesMeans(Moved(w, moves[0]), moves[1..], w');
    }
  }

  lemma ReachesOn(w: World, a: seq<Move>, w1: World, b: seq<Move>, w2: World)
    requires Reaches(w, a, w1) && Reaches(w1, b, w2)
    ensures Reaches(w, a + b, w2)
  {
    PathOn(CanMove, Tried, w, a, w1, b, w2);
  }

  lemma OneMove(w: World, m: Move)
    requires CanMove(w, m)
    ensures Reaches(w, [m], Moved(w, m))
  {
    assert [m][1..] == [];
  }

  function ServerMoves(steps: seq<Step>): seq<Move> {
    if steps == [] then [] else [Server(steps[0])] + ServerMoves(steps[1..])
  }

  lemma {:induction false} ServersMove(w: World, steps: seq<Step>)
    requires Schedule(w.server, steps) && DistinctSchedule(w.server, steps)
    ensures Reaches(w, ServerMoves(steps), w.(server := After(w.server, steps)))
    decreases |steps|
  {
    if steps != [] {
      var m := Server(steps[0]);
      OneMove(w, m);
      ServersMove(Moved(w, m), steps[1..]);
      ReachesOn(w, [m], Moved(w, m), ServerMoves(steps[1..]), w.(server := After(w.server, steps)));
    }
  }

  lemma CallMoves(w: World, r: Request)
    requires Quiet(w.server) && Acceptable(w.server.db, r)
    ensures Reaches(w, ServerMoves(CallSteps(r)), w.(server := AfterCall(w.server, r)))
  {
    TableIsKeyed(w.server.history);
    CallIsASchedule(w.server, r);
    StartingNothingIsDistinct(Next(w.server, Begin(0, r)), [Write(0), Lookup(0), Reserve(0), Insert(0), Commit(0)]);
    assert CallSteps(r)[1..] == [Write(0), Lookup(0), Reserve(0), Insert(0), Commit(0)];
    ServersMove(w, CallSteps(r));
  }

  /** The device lacks one event of a log that has lost none. */
  predicate OneBehind(w: World, d: string) {
    var h := w.server.history;
    && Chain(h) && h != [] && IsKnowledge(h[|h| - 1]) && w.server.db.log == h
    && d in w.devices && !w.devices[d].failed && w.devices[d].projection == At(h, |h| - 1)
  }

  lemma OneBehindPulls(h: seq<Event>, cursor: nat)
    requires Chain(h) && h != []
    ensures PullReply(h, cursor, Some(|h| - 1), 0).events == [h[|h| - 1]]
  {
    var n := |h| - 1;
    LogAscends(h, 0);
    assert h[0..] == h;
    SinceInHistory(h, 0, n);
    assert h[n..] == [h[n]];
    OnePage(h, cursor, Some(n), 0);
  }

  lemma OneBehindApplies(h: seq<Event>)
    requires Chain(h) && h != [] && IsKnowledge(h[|h| - 1])
    ensures ApplyAll(At(h, |h| - 1), [h[|h| - 1]]) == Fold(At(h, |h|), false)
  {
    FoldStep(h, |h| - 1);
    assert [h[|h| - 1]][1..] == [];
  }

  /** It pulls, applies and begins to acknowledge. */
  lemma CatchesUp(w: World, d: string) returns (moves: seq<Move>, w': World)
    requires OneBehind(w, d)
    ensures Reaches(w, moves, w')
    ensures w'.server == w.server && w'.cursors == w.cursors && d in w'.devices
    ensures var h, dev := w.server.history, w'.devices[d];
            && dev.projection == At(h, |h|) && !dev.failed
            && dev.acks == w.devices[d].acks + {(CursorOf(w, d), |h|)}
  {
    var h := w.server.history;
    OneBehindPulls(h, CursorOf(w, d));
    OneBehindApplies(h);
    var pull, deliver := Pull(d, true, 0), Deliver(d, [h[|h| - 1]]);
    var w1 := Moved(w, pull);
    OneMove(w, pull);
    assert deliver.events in w1.devices[d].inbox;
    var w2 := Moved(w1, deliver);
    OneMove(w1, deliver);
    ReachesOn(w, [pull], w1, [deliver], w2);
    w' := Moved(w2, AckRead(d));
    OneMove(w2, AckRead(d));
    moves := [pull] + [deliver] + [AckRead(d)];
    ReachesOn(w, [pull] + [deliver], w2, [AckRead(d)], w');
  }

  function Creation(id: char): Request {
    CreateEntry("d", "", [id], [id], [id])
  }

  lemma OneLetter(c: char)
    requires !IsSpace(c)
    ensures Trim([c]) == [c] && !Blank([c])
  {
    assert TrimLeft([c]) == [c];
  }

  /** What a call adds to table and log, seen from a quiet state whose log has lost nothing. */
  lemma CallAdds(s: State, r: Request)
    requires Quiet(s) && Acceptable(s.db, r) && s.db.log == s.history
    ensures var s' := AfterCall(s, r);
            && Quiet(s') && s'.db.log == s'.history
            && |s'.history| == |s.history| + 1 && s'.history[..|s.history|] == s.history
            && Chain(s'.history) && IsKnowledge(s'.history[|s.history|])
            && s'.db.entries.Keys == s.db.entries.Keys + {r.Id()}
  {
    CallKeepsQuiet(s, r);
    TableIsKeyed(s.history);
    CallEffects(s.db, r, s.now);
  }

  lemma CreationIsAccepted(db: Db, id: char)
    requires !IsSpace(id) && [id] !in db.entries
    ensures Acceptable(db, Creation(id)) && Creation(id).Id() == [id]
  {
    OneLetter(id);
  }

  /** Between calls, nothing cleaned up, the device up to date. */
  predicate UpToDate(w: World, d: string) {
    var h := w.server.history;
    && Quiet(w.server) && w.server.db.log == h
    && d in w.devices && !w.devices[d].failed && w.devices[d].projection == At(h, |h|)
  }

  /** A call is accepted, and the device catches up and begins to acknowledge. */
  lemma CallThenCatchUp(w: World, d: string, r: Request) returns (moves: seq<Move>, w': World)
    requires UpToDate(w, d) && Acceptable(w.server.db, r)
    ensures Reaches(w, moves, w') && UpToDate(w', d)
    ensures w'.cursors == w.cursors && |w'.server.history| == |w.server.history| + 1
    ensures w'.server.db.entries.Keys == w.server.db.entries.Keys + {r.Id()}
    ensures w'.devices[d].acks == w.devices[d].acks + {(CursorOf(w, d), |w'.server.history|)}
  {
    CallAdds(w.server, r);
    CallMoves(w, r);
    var w1 := w.(server := AfterCall(w.server, r));
    var n := |w.server.history|;
    assert w.server.history[..n] == w.server.history;
    assert OneBehind(w1, d);
    var rest;
    rest, w' := CatchesUp(w1, d);
    ReachesOn(w, ServerMoves(CallSteps(r)), w1, rest, w');
    moves := ServerMoves(CallSteps(r)) + rest;
  }

  /** `q` will be accepted once `r` has been. */
  ghost predicate AcceptableNext(db: Db, r: Request, q: Request) {
    Acceptable(db, r) && forall next: Db | next.entries.Keys == db.entries.Keys + {r.Id()} :: Acceptable(next, q)
  }

  lemma CreationsAreAccepted(db: Db, x: char, y: char)
    requires !IsSpace(x) && !IsSpace(y) && x != y && db.entries == map[]
    ensures AcceptableNext(db, Creation(x), Creation(y))
  {
    CreationIsAccepted(db, x);
    forall next: Db | next.entries.Keys == db.entries.Keys + {Creation(x).Id()}
      ensures Acceptable(next, Creation(y))
    {
      assert [y][0] != [x][0];
      CreationIsAccepted(next, y);
    }
  }

  /** Two calls are accepted, the device acknowledging each in a call of its own. */
  lemma TwoAcksUnderWay(w: World, d: string, r: Request, q: Request) returns (moves: seq<Move>, w': World)
    requires UpToDate(w, d) && AcceptableNext(w.server.db, r, q)
    ensures Reaches(w, moves, w') && w'.cursors == w.cursors && d in w'.devices
    ensures (CursorOf(w, d), |w.server.history| + 1) in w'.devices[d].acks
    ensures (CursorOf(w, d), |w.server.history| + 2) in w'.devices[d].acks
  {
    var m1, w1 := CallThenCatchUp(w, d, r);
    var m2, w2 := CallThenCatchUp(w1, d, q);
    ReachesOn(w, m1, w1, m2, w2);
    moves, w' := m1 + m2, w2;
  }

  /** The later acknowledgement writes first; the earlier one takes the cursor back. */
  lemma AcksCross(w: World, d: string) returns (w': World)
    requires d in w.devices && CursorOf(w, d) == 0
    requires (0, 1) in w.devices[d].acks && (0, 2) in w.devices[d].acks
    ensures Reaches(w, [AckWrite(d, (0, 2))], w') && CursorOf(w', d) == 2
    ensures CanMove(w', AckWrite(d, (0, 1))) && CursorOf(Moved(w', AckWrite(d, (0, 1))), d) == 1
  {
    w' := Moved(w, AckWrite(d, (0, 2)));
    OneMove(w, AckWrite(d, (0, 2)));
  }

  lemma Joins(w: World, d: string) returns (w': World)
    requires Quiet(w.server) && w.server.history == w.server.db.log == [] && d !in w.devices
    ensures Reaches(w, [Join(d)], w') && UpToDate(w', d) && w'.server == w.server && w'.cursors == w.cursors
  {
    w' := Moved(w, Join(d));
    OneMove(w, Join(d));
    assert ViewOf(TableOf([])) == map[];
  }

  lemma AcksGoBack(w: World, d: string, r: Request, q: Request) returns (moves: seq<Move>, w': World)
    requires Quiet(w.server) && w.server.history == w.server.db.log == []
    requires d !in w.devices && d !in w.cursors && AcceptableNext(w.server.db, r, q)
    ensures Reaches(w, moves, w') && CursorOf(w', d) == 2
    ensures CanMove(w', AckWrite(d, (0, 1))) && CursorOf(Moved(w', AckWrite(d, (0, 1))), d) == 1
  {
    var w1 := Joins(w, d);
    var rest, w2 := TwoAcksUnderWay(w1, d, r, q);
    ReachesOn(w, [Join(d)], w1, rest, w2);
    w' := AcksCross(w2, d);
    moves := [Join(d)] + rest + [AckWrite(d, (0, 2))];
    ReachesOn(w, [Join(d)] + rest, w2, [AckWrite(d, (0, 2))], w');
  }

  lemma StartIsQuiet()
    ensures Quiet(START.server)
  {
    InitInv();
  }

  /** So there is a run after which a write takes the stored cursor from 2 back to 1. */
  lemma OverlappingAcksGoBack(d: string, x: char, y: char) returns (moves: seq<Move>, last: Move)
    requires !IsSpace(x) && !IsSpace(y) && x != y
    ensures Moves(START, moves) && CanMove(Later(START, moves), last)
    ensures CursorOf(Later(START, moves), d) == 2
    ensures CursorOf(Moved(Later(START, moves), last), d) == 1
  {
    StartIsQuiet();
    CreationsAreAccepted(START.server.db, x, y);
    var w;
    moves, w := AcksGoBack(START, d, Creation(x), Creation(y));
    ReachesMeans(START, moves, w);
    last := AckWrite(d, (0, 1));
  }
}

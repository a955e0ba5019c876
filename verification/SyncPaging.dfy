/** Pulling a user's retained log page by page. */
module SyncPaging {
  import opened Common
  import opened SyncModel

  /** The order the sequence numbers give a user's rows. */
  predicate Ascending(log: seq<Event>) {
    log != [] ==> Above(log[1..], log[0].sequence) && Ascending(log[1..])
  }

  predicate Above(log: seq<Event>, n: nat) {
    forall e <- log :: e.sequence > n
  }

  function InsertBySequence(log: seq<Event>, e: Event): seq<Event> {
    if log == [] then [e]
    else if e.sequence < log[0].sequence then [e] + log
    else [log[0]] + InsertBySequence(log[1..], e)
  }

  /** `ORDER BY sequence`: a log need not have been inserted in the order of its numbers. */
  function BySequence(log: seq<Event>): seq<Event> {
    if log == [] then [] else InsertBySequence(BySequence(log[..|log| - 1]), log[|log| - 1])
  }

  /** No two rows of a user have the same number: the unique index on (user, sequence). */
  predicate NumbersDiffer(log: seq<Event>) {
    log == []
    || (NumbersDiffer(log[..|log| - 1])
        && forall e <- log[..|log| - 1] :: e.sequence != log[|log| - 1].sequence)
  }

  lemma {:induction false} InsertMembers(log: seq<Event>, e: Event)
    ensures multiset(InsertBySequence(log, e)) == multiset(log) + multiset{e}
    ensures forall x :: x in InsertBySequence(log, e) <==> x == e || x in log
  {
    if log != [] {
      assert log == [log[0]] + log[1..];
      if e.sequence >= log[0].sequence {
        InsertMembers(log[1..], e);
      }
    }
  }

  lemma {:induction false} InsertAscends(log: seq<Event>, e: Event)
    requires Ascending(log) && forall x <- log :: x.sequence != e.sequence
    ensures Ascending(InsertBySequence(log, e))
  {
    if log != [] {
      assert log == [log[0]] + log[1..];
      if e.sequence < log[0].sequence {
        assert ([e] + log)[1..] == log;
      } else {
        InsertAscends(log[1..], e);
        InsertMembers(log[1..], e);
        var rest := InsertBySequence(log[1..], e);
        assert ([log[0]] + rest)[1..] == rest;
      }
    }
  }

  lemma {:induction false} InsertAdds(log: seq<Event>, e: Event)
    ensures multiset(InsertBySequence(log, e)) == multiset(log + [e])
  {
    InsertMembers(log, e);
  }

  lemma {:induction false} BySequenceAdds(log: seq<Event>)
    ensures multiset(BySequence(log)) == multiset(log)
  {
    if log != [] {
      var n := |log| - 1;
      BySequenceAdds(log[..n]);
      InsertAdds(BySequence(log[..n]), log[n]);
      assert multiset(log) == multiset(log[..n] + [log[n]]) by {
        assert log == log[..n] + [log[n]];
      }
    }
  }

  lemma BySequenceMembers(log: seq<Event>)
    ensures forall x :: x in BySequence(log) <==> x in log
  {
    BySequenceAdds(log);
    forall x
      ensures x in BySequence(log) <==> x in log
    {
      assert x in BySequence(log) <==> x in multiset(BySequence(log));
      assert x in log <==> x in multiset(log);
    }
  }

  /** Ordering keeps the rows and, as no two have one number, makes them ascend. */
  lemma {:induction false} OrderedBySequence(log: seq<Event>)
    requires NumbersDiffer(log)
    ensures multiset(BySequence(log)) == multiset(log)
    ensures forall x :: x in BySequence(log) <==> x in log
    ensures Ascending(BySequence(log))
  {
    BySequenceAdds(log);
    BySequenceMembers(log);
    if log != [] {
      var n := |log| - 1;
      OrderedBySequence(log[..n]);
      BySequenceMembers(log[..n]);
      InsertAscends(BySequence(log[..n]), log[n]);
    }
  }

  lemma {:induction false} InsertLast(log: seq<Event>, e: Event)
    requires forall x <- log :: x.sequence <= e.sequence
    ensures InsertBySequence(log, e) == log + [e]
  {
    if log != [] {
      InsertLast(log[1..], e);
      assert log + [e] == [log[0]] + (log[1..] + [e]);
    }
  }

  lemma {:induction false} AscendingPrefix(log: seq<Event>, n: nat)
    requires Ascending(log) && n <= |log|
    ensures Ascending(log[..n])
    ensures n < |log| ==> forall x <- log[..n] :: x.sequence < log[n].sequence
  {
    if n > 0 {
      AscendingPrefix(log[1..], n - 1);
      assert log[..n][1..] == log[1..][..n - 1] && log[..n][0] == log[0];
      assert forall x <- log[..n] :: x == log[0] || x in log[1..][..n - 1];
      if n < |log| {
        assert log[1..][n - 1] == log[n] && log[n] in log[1..];
      }
    }
  }

  /** A log inserted in the order of its numbers is in order already. */
  lemma {:induction false} AscendingIsOrdered(log: seq<Event>)
    requires Ascending(log)
    ensures BySequence(log) == log
  {
    if log != [] {
      var n := |log| - 1;
      AscendingPrefix(log, n);
      AscendingIsOrdered(log[..n]);
      InsertLast(log[..n], log[n]);
      assert log == log[..n] + [log[n]];
    }
  }

  /** The rows numbered above `n`. */
  function Since(log: seq<Event>, n: nat): seq<Event> {
    if log == [] then []
    else (if log[0].sequence > n then [log[0]] else []) + Since(log[1..], n)
  }

  function Take(log: seq<Event>, limit: nat): seq<Event> {
    if |log| <= limit then log else log[..limit]
  }

  function NormalizeLimit(limit: int): (l: nat)
    ensures 1 <= l <= 500
  {
    if limit <= 0 || limit > 500 then 100 else limit
  }

  /** `GetEventsAfter`: the service normalises the limit it is given once more. */
  function Page(log: seq<Event>, after: nat, limit: int): seq<Event> {
    Take(Since(log, after), if limit <= 0 || limit > 500 then 100 else limit)
  }

  datatype Reply = Reply(events: seq<Event>, nextAfter: nat, hasMore: bool)

  /** The pull handler: one row more than the limit is asked for to learn whether more remain. */
  function PullReply(log: seq<Event>, cursor: nat, after: Option<nat>, requested: int): Reply {
    var limit := NormalizeLimit(requested);
    var rows := Page(log, if after.Some? then after.value else cursor, limit + 1);
    var hasMore := |rows| > limit;
    var events := if hasMore then rows[..limit] else rows;
    Reply(events,
          if events != [] then events[|events| - 1].sequence
          else if after.Some? then after.value
          else 0,
          hasMore)
  }

  lemma {:induction false} SinceAll(log: seq<Event>, n: nat)
    requires Above(log, n)
    ensures Since(log, n) == log
  {
    if log != [] {
      SinceAll(log[1..], n);
      assert [log[0]] + log[1..] == log;
    }
  }

  /** In an ascending log the rows above `n` are a suffix. */
  lemma {:induction false} SinceIsSuffix(log: seq<Event>, n: nat)
    requires Ascending(log)
    ensures |Since(log, n)| <= |log|
    ensures Since(log, n) == log[|log| - |Since(log, n)|..]
  {
    if log == [] {
    } else if log[0].sequence > n {
      SinceAll(log, n);
    } else {
      SinceIsSuffix(log[1..], n);
      var rest := Since(log[1..], n);
      assert [] + rest == rest;
      assert log[1..][|log| - 1 - |rest|..] == log[|log| - |rest|..];
    }
  }

  lemma {:induction false} SinceRow(log: seq<Event>, cut: nat)
    requires Ascending(log) && 0 < cut <= |log|
    ensures Since(log, log[cut - 1].sequence) == log[cut..]
  {
    if cut == 1 {
      SinceAll(log[1..], log[0].sequence);
    } else {
      assert log[1..][cut - 2] == log[cut - 1];
      SinceRow(log[1..], cut - 1);
    }
  }

  /** Resuming from the last row of a prefix of what is left leaves the rest. */
  lemma SinceLast(log: seq<Event>, n: nat, k: nat)
    requires Ascending(log) && 0 < k <= |Since(log, n)|
    ensures Since(log, Since(log, n)[k - 1].sequence) == Since(log, n)[k..]
  {
    SinceIsSuffix(log, n);
    var base := |log| - |Since(log, n)|;
    assert Since(log, n)[k - 1] == log[base + k - 1];
    SinceRow(log, base + k);
    assert log[base + k..] == Since(log, n)[k..];
  }

  /** The rows above a number are those of the log with a greater one. */
  lemma {:induction false} SinceMembers(log: seq<Event>, n: nat)
    ensures forall e :: e in Since(log, n) <==> e in log && e.sequence > n
  {
    if log != [] {
      SinceMembers(log[1..], n);
      assert log == [log[0]] + log[1..];
    }
  }

  /** One page: the first rows above the start, as many as asked for, or 100 when a number outside 1 .. 499 is asked
      for. `has_more` is right exactly unless the limit asked for is 500 and more than 100 rows remain: the look-ahead
      query then asks for 501 rows, the service answers with its default of 100, and `has_more` is always false. */
  lemma OnePage(log: seq<Event>, cursor: nat, after: Option<nat>, requested: int)
    requires Ascending(log)
    ensures var start := if after.Some? then after.value else cursor;
            var left := Since(log, start);
            var r := PullReply(log, cursor, after, requested);
            && r.events <= left
            && (1 <= requested < 500 ==> |r.events| == if |left| < requested then |left| else requested)
            && (requested <= 0 || requested >= 500 ==> |r.events| == if |left| < 100 then |left| else 100)
            && ((r.hasMore <==> |left| > |r.events|) <==> !(requested == 500 && |left| > 100))
            && (r.events != [] ==> r.nextAfter == r.events[|r.events| - 1].sequence)
            && (r.events != [] ==> Since(log, r.nextAfter) == left[|r.events|..])
            && (r.events == [] ==> left == [] && r.nextAfter == if after.Some? then after.value else 0)
  {
    var start := if after.Some? then after.value else cursor;
    var r := PullReply(log, cursor, after, requested);
    if r.events != [] {
      SinceLast(log, start, |r.events|);
    }
  }

  /** A pull without `after_sequence` that finds nothing answers 0, not the cursor: a client that goes on
      from there is sent back to the start of the retained log. */
  lemma EmptyCursorPull(log: seq<Event>, cursor: nat, requested: int)
    requires Ascending(log) && Since(log, cursor) == []
    ensures var r := PullReply(log, cursor, None, requested);
            && r == Reply([], 0, false)
            && (Above(log, 0) ==> Since(log, r.nextAfter) == log)
  {
    if Above(log, 0) {
      SinceAll(log, 0);
    }
    OnePage(log, cursor, None, requested);
  }

  /** Going on from the answered number finds exactly what the page left out, for every limit, start and log, except
      after an empty pull without `after_sequence` from a log that is not empty. */
  lemma NextStartIff(log: seq<Event>, cursor: nat, after: Option<nat>, requested: int)
    requires Ascending(log) && Above(log, 0)
    ensures var left := Since(log, if after.Some? then after.value else cursor);
            var r := PullReply(log, cursor, after, requested);
            Since(log, r.nextAfter) == left[|r.events|..] <==> !(after.None? && left == [] && log != [])
  {
    OnePage(log, cursor, after, requested);
    SinceAll(log, 0);
  }

  /** The client's loop: pull from `after_sequence`, then from `next_after_sequence`, until `has_more`
      is false. */
  function Pages(log: seq<Event>, start: nat, requested: int): seq<Reply>
    requires Ascending(log) && requested != 500
    decreases |Since(log, start)|
  {
    OnePage(log, 0, Some(start), requested);
    var r := PullReply(log, 0, Some(start), requested);
    if r.hasMore then [r] + Pages(log, r.nextAfter, requested) else [r]
  }

  function Events(pages: seq<Reply>): seq<Event> {
    if pages == [] then [] else pages[0].events + Events(pages[1..])
  }

  /** `p` is the least positive number of pages of `limit` rows that holds `n` rows: max(1, ceil(n / limit)). */
  predicate LeastPages(n: nat, limit: nat, p: nat) {
    p >= 1 && n <= p * limit && (p > 1 ==> (p - 1) * limit < n)
  }

  lemma OneMorePage(n: nat, limit: nat, p: nat)
    requires n > limit && LeastPages(n - limit, limit, p)
    ensures LeastPages(n, limit, p + 1)
  {
    assert (p + 1) * limit == p * limit + limit;
    assert p > 1 ==> p * limit == (p - 1) * limit + limit;
  }

  lemma OnePageHolds(n: nat, limit: nat)
    requires n <= limit
    ensures LeastPages(n, limit, 1)
  {
  }

  /** How one pull of the client's loop goes on. */
  lemma NextPull(log: seq<Event>, start: nat, requested: int)
    requires Ascending(log) && requested != 500
    ensures var r := PullReply(log, 0, Some(start), requested);
            var n, limit := |Since(log, start)|, NormalizeLimit(requested);
            if r.hasMore
            then n > limit && |Since(log, r.nextAfter)| == n - limit
                 && |Pages(log, start, requested)| == |Pages(log, r.nextAfter, requested)| + 1
            else n <= limit && |Pages(log, start, requested)| == 1
  {
    OnePage(log, 0, Some(start), requested);
  }

  lemma {:induction false} PagesCount(log: seq<Event>, start: nat, requested: int)
    requires Ascending(log) && requested != 500
    ensures LeastPages(|Since(log, start)|, NormalizeLimit(requested), |Pages(log, start, requested)|)
    decreases |Since(log, start)|
  {
    NextPull(log, start, requested);
    var n, limit := |Since(log, start)|, NormalizeLimit(requested);
    var r := PullReply(log, 0, Some(start), requested);
    if r.hasMore {
      PagesCount(log, r.nextAfter, requested);
      OneMorePage(n, limit, |Pages(log, r.nextAfter, requested)|);
    } else {
      OnePageHolds(n, limit);
    }
  }

  /** What one pull of the client's loop brings, and what it leaves to the next. */
  lemma NextEvents(log: seq<Event>, start: nat, requested: int)
    requires Ascending(log) && requested != 500
    ensures var r := PullReply(log, 0, Some(start), requested);
            Since(log, start) == r.events + if r.hasMore then Since(log, r.nextAfter) else []
  {
    OnePage(log, 0, Some(start), requested);
    var r, left := PullReply(log, 0, Some(start), requested), Since(log, start);
    PrefixAndRest(r.events, left);
    if !r.hasMore {
      assert left[|r.events|..] == [];
    }
  }

  lemma PrefixAndRest(a: seq<Event>, b: seq<Event>)
    requires a <= b
    ensures b == a + b[|a|..]
  {
  }

  lemma {:induction false} PagesCover(log: seq<Event>, start: nat, requested: int)
    requires Ascending(log) && requested != 500
    ensures Events(Pages(log, start, requested)) == Since(log, start)
    decreases |Since(log, start)|
  {
    NextPull(log, start, requested);
    NextEvents(log, start, requested);
    var r := PullReply(log, 0, Some(start), requested);
    if r.hasMore {
      PagesCover(log, r.nextAfter, requested);
      var rest := Pages(log, r.nextAfter, requested);
      assert ([r] + rest)[1..] == rest;
    } else {
      assert [r][1..] == [];
    }
  }

  lemma {:induction false} OnlyLastPageEnds(log: seq<Event>, start: nat, requested: int, i: nat)
    requires Ascending(log) && requested != 500
    requires i < |Pages(log, start, requested)|
    ensures Pages(log, start, requested)[i].hasMore <==> i < |Pages(log, start, requested)| - 1
    decreases |Since(log, start)|
  {
    OnePage(log, 0, Some(start), requested);
    var r := PullReply(log, 0, Some(start), requested);
    if r.hasMore && i > 0 {
      OnlyLastPageEnds(log, r.nextAfter, requested, i - 1);
    }
  }

  /** Every row after the start comes once and in order, in max(1, ceil(n / limit)) pages, and only the
      last page says that nothing remains. */
  lemma ExactPaging(log: seq<Event>, start: nat, requested: int)
    requires Ascending(log) && requested != 500
    ensures var pages := Pages(log, start, requested);
            && Events(pages) == Since(log, start)
            && (1 <= requested < 500 ==> LeastPages(|Since(log, start)|, requested, |pages|))
            && (requested <= 0 || requested > 500 ==> LeastPages(|Since(log, start)|, 100, |pages|))
            && (forall i | 0 <= i < |pages| :: pages[i].hasMore <==> i < |pages| - 1)
  {
    PagesCover(log, start, requested);
    PagesCount(log, start, requested);
    var pages := Pages(log, start, requested);
    forall i | 0 <= i < |pages| ensures pages[i].hasMore <==> i < |pages| - 1 {
      OnlyLastPageEnds(log, start, requested, i);
    }
  }
}

/** A device that cleanup has overtaken: exactly when it still ends up with the right table. */
module SyncRetention {
  import opened Common
  import opened SyncModel
  import opened SyncHistory
  import opened SyncClient

  /** Event `i` changed entry `id`. */
  predicate ChangesEntry(h: seq<Event>, i: nat, id: string)
    requires i < |h|
  {
    IsKnowledge(h[i]) && h[i].payload.entry.id == id && !Repeats(TableOf(h[..i]), h[i])
  }

  /** Some event from `r` up to `b` carries entry `id`. */
  predicate Carried(h: seq<Event>, r: nat, b: nat, id: string)
    requires r <= b <= |h|
    decreases b - r
  {
    r < b && ((IsKnowledge(h[b - 1]) && h[b - 1].payload.entry.id == id) || Carried(h, r, b - 1, id))
  }

  lemma {:induction false} CarriedMeans(h: seq<Event>, r: nat, b: nat, id: string, i: nat)
    requires r <= i < b <= |h| && IsKnowledge(h[i]) && h[i].payload.entry.id == id
    ensures Carried(h, r, b, id)
    decreases b - r
  {
    if i < b - 1 {
      CarriedMeans(h, r, b - 1, id, i);
    }
  }

  /** Every entry changed by one of the missed events `c .. r` is carried again by a retained one. */
  ghost predicate MissedAreCarried(h: seq<Event>, c: nat, r: nat)
    requires c <= r <= |h|
  {
    forall i, id | c <= i < r && ChangesEntry(h, i, id) :: Carried(h, r, |h|, id)
  }

  /** Entries carried by what the device received are current; the others are as the device left them. */
  ghost predicate PatchedView(h: seq<Event>, c: nat, r: nat, b: nat, v: View)
    requires c <= r <= b <= |h|
  {
    forall id ::
      if Carried(h, r, b, id)
      then id in v && id in TableOf(h[..b]) && v[id] == Project(TableOf(h[..b])[id])
      else (id in v <==> id in TableOf(h[..c])) && (id in v ==> v[id] == Project(TableOf(h[..c])[id]))
  }

  /** The row the fold meets is never newer than the event, and the same row when equally new. */
  lemma LocalIsOlder(h: seq<Event>, c: nat, r: nat, b: nat, p: Projection)
    requires Chain(h) && c <= r <= b < |h| && IsKnowledge(h[b])
    requires PatchedView(h, c, r, b, p.entries) && p.cursor <= b
    ensures var q := ApplyEvent(p, h[b]);
            var row := h[b].payload.entry;
            q == Some(Projection(p.entries[row.id := Project(row)], b + 1))
  {
    var row := h[b].payload.entry;
    var t := TableOf(h[..b]);
    assert Follows(t, h[b]);
    if row.id in p.entries && !Carried(h, r, b, row.id) {
      assert h[..b][..c] == h[..c];
      ChainPrefix(h, b);
      RowsOnlyAdvance(h[..b], c, row.id);
    }
    if row.id in p.entries {
      assert row.id in t && p.entries[row.id].version <= t[row.id].version <= row.version;
      if row.version == p.entries[row.id].version {
        assert p.entries[row.id] == Project(row);
        assert p.entries[row.id := Project(row)] == p.entries;
      }
    }
  }

  lemma PatchStep(h: seq<Event>, c: nat, r: nat, b: nat, v: View)
    requires Chain(h) && c <= r <= b < |h| && IsKnowledge(h[b])
    requires PatchedView(h, c, r, b, v)
    ensures PatchedView(h, c, r, b + 1, v[h[b].payload.entry.id := Project(h[b].payload.entry)])
  {
    TableStep(h, b);
  }

  ghost predicate Patched(h: seq<Event>, c: nat, r: nat, b: nat, f: Fold)
    requires c <= r <= b <= |h|
  {
    !f.failed && f.projection.cursor <= b && PatchedView(h, c, r, b, f.projection.entries)
  }

  /** The fold from a device at `c` over `h[r..b]`. */
  function Gap(h: seq<Event>, c: nat, r: nat, b: nat): Fold
    requires c <= r <= b <= |h|
  {
    ApplyAll(At(h, c), h[r..b])
  }

  lemma GapStart(h: seq<Event>, c: nat, r: nat)
    requires c <= r <= |h|
    ensures Patched(h, c, r, r, Gap(h, c, r, r))
  {
  }

  lemma GapExtend(h: seq<Event>, c: nat, r: nat, b: nat)
    requires c <= r <= b < |h| && !Gap(h, c, r, b).failed
    ensures Gap(h, c, r, b + 1) == ApplyAll(Gap(h, c, r, b).projection, [h[b]])
  {
    assert h[r..b + 1] == h[r..b] + [h[b]];
    ApplyAllAppend(At(h, c), h[r..b], [h[b]]);
  }

  lemma GapStep(h: seq<Event>, c: nat, r: nat, b: nat, f: Fold, f': Fold)
    requires Chain(h) && c <= r <= b < |h| && IsKnowledge(h[b])
    requires Patched(h, c, r, b, f)
    requires f' == ApplyAll(f.projection, [h[b]])
    ensures Patched(h, c, r, b + 1, f')
  {
    LocalIsOlder(h, c, r, b, f.projection);
    PatchStep(h, c, r, b, f.projection.entries);
    assert [h[b]][1..] == [];
  }

  lemma {:induction false} GapFold(h: seq<Event>, c: nat, r: nat, b: nat)
    requires Chain(h) && c <= r <= b <= |h|
    requires forall i | r <= i < b :: IsKnowledge(h[i])
    ensures Patched(h, c, r, b, Gap(h, c, r, b))
    decreases b - r
  {
    if r == b {
      GapStart(h, c, r);
    } else {
      var m := b - 1;
      GapFold(h, c, r, m);
      GapExtend(h, c, r, m);
      GapStep(h, c, r, m, Gap(h, c, r, m), Gap(h, c, r, m + 1));
    }
  }

  lemma {:induction false} ChangesAddUp(h: seq<Event>, c: nat, n: nat, id: string)
    requires c <= n <= |h|
    ensures Changes(h[..c], id) <= Changes(h[..n], id)
    ensures Changes(h[..c], id) == Changes(h[..n], id) <==> forall i | c <= i < n :: !ChangesEntry(h, i, id)
    decreases n - c
  {
    if c < n {
      ChangesAddUp(h, c, n - 1, id);
      assert h[..n][..n - 1] == h[..n - 1];
      assert Changes(h[..n], id) == Changes(h[..n - 1], id) + if ChangesEntry(h, n - 1, id) then 1 else 0;
    }
  }

  /** Same version, same row: between `c` and `n` an entry is untouched exactly when its count of changes is. */
  lemma RowsAgree(h: seq<Event>, c: nat, n: nat, id: string)
    requires Chain(h) && c <= n <= |h|
    ensures var t, u := TableOf(h[..c]), TableOf(h[..n]);
            (Changes(h[..c], id) == Changes(h[..n], id)) <==>
              ((id in t <==> id in u) && (id in t && id in u ==> Project(t[id]) == Project(u[id])))
  {
    ChainPrefix(h, c);
    ChainPrefix(h, n);
    VersionCountsChanges(h[..c], id);
    VersionCountsChanges(h[..n], id);
    assert h[..n][..c] == h[..c];
    if id in TableOf(h[..c]) {
      RowsOnlyAdvance(h[..n], c, id);
    }
  }

  lemma UntouchedEntry(h: seq<Event>, c: nat, r: nat, id: string)
    requires Chain(h) && c <= r <= |h| && MissedAreCarried(h, c, r) && !Carried(h, r, |h|, id)
    ensures var t, u := TableOf(h[..c]), TableOf(h);
            (id in t <==> id in u) && (id in t && id in u ==> Project(t[id]) == Project(u[id]))
  {
    assert h[..|h|] == h;
    forall i | c <= i < |h| ensures !ChangesEntry(h, i, id) {
      if i >= r && ChangesEntry(h, i, id) {
        CarriedMeans(h, r, |h|, id, i);
      }
    }
    ChangesAddUp(h, c, |h|, id);
    RowsAgree(h, c, |h|, id);
  }

  lemma RecoveredView(h: seq<Event>, c: nat, r: nat, v: View)
    requires Chain(h) && c <= r <= |h| && PatchedView(h, c, r, |h|, v) && MissedAreCarried(h, c, r)
    ensures v == ViewOf(TableOf(h))
  {
    var w := ViewOf(TableOf(h));
    assert h[..|h|] == h;
    forall id ensures (id in v <==> id in w) && (id in v && id in w ==> v[id] == w[id]) {
      if !Carried(h, r, |h|, id) {
        UntouchedEntry(h, c, r, id);
      }
    }
    assert v.Keys == w.Keys;
  }

  lemma LostEntry(h: seq<Event>, c: nat, r: nat, v: View, i: nat, id: string)
    requires Chain(h) && c <= i < r <= |h| && PatchedView(h, c, r, |h|, v)
    requires ChangesEntry(h, i, id) && !Carried(h, r, |h|, id)
    ensures v != ViewOf(TableOf(h))
  {
    assert h[..|h|] == h;
    ChangesAddUp(h, c, |h|, id);
    RowsAgree(h, c, |h|, id);
  }

  /** A device at `c` that pulls when the first `r` events are gone (`c < r`), and applies all that is
      left, shows the current table if and only if every entry changed by an event it missed is carried
      again by a retained event. With `r == c` nothing is missed and the condition is empty. */
  lemma OvertakenDevice(h: seq<Event>, c: nat, r: nat)
    requires Chain(h) && c <= r <= |h|
    requires forall i | r <= i < |h| :: IsKnowledge(h[i])
    ensures ApplyAll(At(h, c), h[r..]).projection.entries == ViewOf(TableOf(h)) <==> MissedAreCarried(h, c, r)
  {
    assert h[r..] == h[r..|h|];
    GapFold(h, c, r, |h|);
    var v := Gap(h, c, r, |h|).projection.entries;
    if MissedAreCarried(h, c, r) {
      RecoveredView(h, c, r, v);
    } else {
      var i, id :| c <= i < r && ChangesEntry(h, i, id) && !Carried(h, r, |h|, id);
      LostEntry(h, c, r, v, i, id);
    }
  }
}

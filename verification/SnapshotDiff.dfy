/** Comparing two snapshots of a knowledge base, entry by entry. */
module SnapshotDiff {
  import opened TextLists

  /** `metadata` is the text Go prints for the entry's metadata. */
  datatype Entry = Entry(
    id: string, title: string, summary: string, uri: string, tokens: int, tags: seq<string>, metadata: string)

  datatype Change = Change(id: string, before: Entry, after: Entry)

  datatype Diff = Diff(added: seq<Entry>, removed: seq<Entry>, changed: seq<Change>, same: nat)

  type Entries = map<string, Entry>

  /** What Go prints for a list of tags. */
  function Printed(tags: seq<string>): string {
    "[" + Join(tags, ' ') + "]"
  }

  predicate Changed(a: Entry, b: Entry) {
    || a.title != b.title || a.summary != b.summary || a.uri != b.uri || a.tokens != b.tokens
    || Printed(a.tags) != Printed(b.tags) || a.metadata != b.metadata
  }

  /** The entries by id; of entries with the same id the last counts. */
  function ById(entries: seq<Entry>): Entries {
    if entries == [] then map[]
    else
      var n := |entries| - 1;
      ById(entries[..n])[entries[n].id := entries[n]]
  }

  predicate Keyed(m: Entries) {
    forall id | id in m :: m[id].id == id
  }

  // ---------- the diff ----------

  /** A way of telling whether an entry changed. */
  type Compare = (Entry, Entry) -> bool

  function AddedIds(a: Entries, b: Entries): set<string> {
    b.Keys - a.Keys
  }

  function ChangedIds(differ: Compare, a: Entries, b: Entries): set<string> {
    set id | id in a && id in b && differ(a[id], b[id])
  }

  function UnchangedIds(differ: Compare, a: Entries, b: Entries): set<string> {
    set id | id in a && id in b && !differ(a[id], b[id])
  }

  /** The list holds the entries of `m` under the given ids, each once, in some order. */
  predicate Lists(es: seq<Entry>, ids: set<string>, m: Entries) {
    && |es| == |ids| && ids <= m.Keys
    && (forall e | e in es :: e.id in ids && e == m[e.id])
    && (forall id | id in ids :: m[id] in es)
  }

  predicate ListsChanges(cs: seq<Change>, ids: set<string>, a: Entries, b: Entries) {
    && |cs| == |ids| && ids <= a.Keys * b.Keys
    && (forall c | c in cs :: c.id in ids && c == Change(c.id, a[c.id], b[c.id]))
    && (forall id | id in ids :: Change(id, a[id], b[id]) in cs)
  }

  predicate IsDiff(differ: Compare, a: Entries, b: Entries, d: Diff) {
    && Lists(d.added, AddedIds(a, b), b)
    && Lists(d.removed, AddedIds(b, a), a)
    && ListsChanges(d.changed, ChangedIds(differ, a, b), a, b)
    && d.same == |UnchangedIds(differ, a, b)|
  }

  lemma ListsGrow(es: seq<Entry>, ids: set<string>, m: Entries, id: string)
    requires Lists(es, ids, m) && Keyed(m) && id in m && id !in ids
    ensures Lists(es + [m[id]], ids + {id}, m)
  {
  }

  lemma ChangesGrow(cs: seq<Change>, ids: set<string>, a: Entries, b: Entries, id: string)
    requires ListsChanges(cs, ids, a, b) && id in a && id in b && id !in ids
    ensures ListsChanges(cs + [Change(id, a[id], b[id])], ids + {id}, a, b)
  {
  }

  method IndexById(entries: seq<Entry>) returns (m: Entries)
    ensures m == ById(entries)
  {
    m := map[];
    for i := 0 to |entries|
      invariant m == ById(entries[..i])
    {
      assert entries[..i + 1][..i] == entries[..i];
      m := m[entries[i].id := entries[i]];
    }
    assert entries[..|entries|] == entries;
  }

  /** Taking one id off those still to be scanned. */
  lemma Shrink(ids: set<string>, left: set<string>, id: string)
    requires id in left
    ensures id !in ids - left
    ensures ids - (left - {id}) == if id in ids then (ids - left) + {id} else ids - left
    ensures |ids - (left - {id})| == |ids - left| + if id in ids then 1 else 0
  {
    assert ids - (left - {id}) == if id in ids then (ids - left) + {id} else ids - left;
  }

  /** What the scan of the new side has when `left` is still to be looked at. */
  predicate Scanned(differ: Compare, a: Entries, b: Entries, left: set<string>,
                    added: seq<Entry>, changed: seq<Change>, same: nat)
  {
    && Lists(added, AddedIds(a, b) - left, b)
    && ListsChanges(changed, ChangedIds(differ, a, b) - left, a, b)
    && same == |UnchangedIds(differ, a, b) - left|
  }

  lemma ScanOne(differ: Compare, a: Entries, b: Entries, left: set<string>,
                added: seq<Entry>, changed: seq<Change>, same: nat, id: string)
    requires Keyed(b) && id in left && id in b && Scanned(differ, a, b, left, added, changed, same)
    ensures Scanned(differ, a, b, left - {id},
                    if id in a then added else added + [b[id]],
                    if id in a && differ(a[id], b[id]) then changed + [Change(id, a[id], b[id])] else changed,
                    if id in a && !differ(a[id], b[id]) then same + 1 else same)
  {
    Shrink(AddedIds(a, b), left, id);
    Shrink(ChangedIds(differ, a, b), left, id);
    Shrink(UnchangedIds(differ, a, b), left, id);
    if id !in a {
      ListsGrow(added, AddedIds(a, b) - left, b, id);
    } else if differ(a[id], b[id]) {
      ChangesGrow(changed, ChangedIds(differ, a, b) - left, a, b, id);
    }
  }

  lemma ScanStartsEmpty(differ: Compare, a: Entries, b: Entries)
    ensures Scanned(differ, a, b, b.Keys, [], [], 0)
  {
    assert AddedIds(a, b) - b.Keys == {} && ChangedIds(differ, a, b) - b.Keys == {};
    assert UnchangedIds(differ, a, b) - b.Keys == {};
  }

  lemma ScanEnds(differ: Compare, a: Entries, b: Entries, added: seq<Entry>, changed: seq<Change>, same: nat)
    requires Scanned(differ, a, b, {}, added, changed, same)
    ensures Lists(added, AddedIds(a, b), b) && ListsChanges(changed, ChangedIds(differ, a, b), a, b)
    ensures same == |UnchangedIds(differ, a, b)|
  {
  }

  lemma MinusNothing(ids: set<string>)
    ensures ids - {} == ids
  {
  }

  lemma RemoveOne(a: Entries, b: Entries, left: set<string>, removed: seq<Entry>, id: string)
    requires Keyed(a) && id in left && id in a && Lists(removed, AddedIds(b, a) - left, a)
    ensures Lists(if id in b then removed else removed + [a[id]], AddedIds(b, a) - (left - {id}), a)
  {
    Shrink(AddedIds(b, a), left, id);
    if id !in b {
      ListsGrow(removed, AddedIds(b, a) - left, a, id);
    }
  }

  /** The scan of the new side, taking the ids in whatever order the map gives them. */
  method CompareNew(differ: Compare, a: Entries, b: Entries)
    returns (added: seq<Entry>, changed: seq<Change>, same: nat)
    requires Keyed(b)
    ensures Lists(added, AddedIds(a, b), b)
    ensures ListsChanges(changed, ChangedIds(differ, a, b), a, b)
    ensures same == |UnchangedIds(differ, a, b)|
  {
    added, changed, same := [], [], 0;
    var left := b.Keys;
    ScanStartsEmpty(differ, a, b);
    while left != {}
      invariant left <= b.Keys && Scanned(differ, a, b, left, added, changed, same)
      decreases left
    {
      var id :| id in left;
      ScanOne(differ, a, b, left, added, changed, same, id);
      left := left - {id};
      if id !in a {
        added := added + [b[id]];
        continue;
      }
      if differ(a[id], b[id]) {
        changed := changed + [Change(id, a[id], b[id])];
      } else {
        same := same + 1;
      }
    }
    ScanEnds(differ, a, b, added, changed, same);
  }

  method FindRemoved(a: Entries, b: Entries) returns (removed: seq<Entry>)
    requires Keyed(a)
    ensures Lists(removed, AddedIds(b, a), a)
  {
    removed := [];
    var left := a.Keys;
    assert AddedIds(b, a) - left == {};
    while left != {}
      invariant left <= a.Keys && Lists(removed, AddedIds(b, a) - left, a)
      decreases left
    {
      var id :| id in left;
      RemoveOne(a, b, left, removed, id);
      left := left - {id};
      if id !in b {
        removed := removed + [a[id]];
      }
    }
    MinusNothing(AddedIds(b, a));
  }

  method DiffSnapshots(from: seq<Entry>, to: seq<Entry>) returns (d: Diff)
    ensures IsDiff(Changed, ById(from), ById(to), d)
  {
    var a := IndexById(from);
    var b := IndexById(to);
    ByIdIsKeyed(from);
    ByIdIsKeyed(to);
    var added, changed, same := CompareNew(Changed, a, b);
    var removed := FindRemoved(a, b);
    d := Diff(added, removed, changed, same);
  }

  lemma {:induction false} ByIdIsKeyed(entries: seq<Entry>)
    ensures Keyed(ById(entries))
    ensures ById(entries).Keys == set e | e in entries :: e.id
  {
    if entries != [] {
      var n := |entries| - 1;
      ByIdIsKeyed(entries[..n]);
      assert entries == entries[..n] + [entries[n]];
    }
  }

  /** Of the entries with one id the last counts. */
  lemma {:induction false} LastCounts(entries: seq<Entry>, i: nat)
    requires i < |entries| && forall j | i < j < |entries| :: entries[j].id != entries[i].id
    ensures entries[i].id in ById(entries) && ById(entries)[entries[i].id] == entries[i]
  {
    var n := |entries| - 1;
    if i < n {
      LastCounts(entries[..n], i);
    }
  }

  // ---------- the diff as a patch ----------

  function Without(m: Entries, removed: seq<Entry>): Entries {
    if removed == [] then m else Without(m, removed[..|removed| - 1]) - {removed[|removed| - 1].id}
  }

  function With(m: Entries, es: seq<Entry>): Entries {
    if es == [] then m else With(m, es[..|es| - 1])[es[|es| - 1].id := es[|es| - 1]]
  }

  function Replacing(m: Entries, cs: seq<Change>): Entries {
    if cs == [] then m else Replacing(m, cs[..|cs| - 1])[cs[|cs| - 1].id := cs[|cs| - 1].after]
  }

  /** Drop what was removed, replace what changed, put in what was added. */
  function Patched(m: Entries, d: Diff): Entries {
    With(Replacing(Without(m, d.removed), d.changed), d.added)
  }

  /** The same entries as far as the comparison sees. */
  predicate SameEntries(differ: Compare, a: Entries, b: Entries) {
    a.Keys == b.Keys && forall id | id in a :: !differ(a[id], b[id])
  }

  lemma {:induction false} WithoutIs(m: Entries, removed: seq<Entry>, id: string)
    ensures id in Without(m, removed) <==> id in m && !exists e :: e in removed && e.id == id
    ensures id in Without(m, removed) ==> Without(m, removed)[id] == m[id]
  {
    if removed != [] {
      var n := |removed| - 1;
      WithoutIs(m, removed[..n], id);
      assert removed == removed[..n] + [removed[n]];
    }
  }

  lemma {:induction false} WithIs(m: Entries, es: seq<Entry>, id: string)
    ensures id in With(m, es) <==> id in m || exists e :: e in es && e.id == id
    ensures id in With(m, es) ==>
      (id in m && With(m, es)[id] == m[id] && !exists e :: e in es && e.id == id)
      || (With(m, es)[id] in es && With(m, es)[id].id == id)
  {
    if es != [] {
      var n := |es| - 1;
      WithIs(m, es[..n], id);
      assert es == es[..n] + [es[n]];
    }
  }

  lemma {:induction false} ReplacingIs(m: Entries, cs: seq<Change>, id: string)
    ensures id in Replacing(m, cs) <==> id in m || exists c :: c in cs && c.id == id
    ensures id in Replacing(m, cs) ==>
      (id in m && Replacing(m, cs)[id] == m[id] && !exists c :: c in cs && c.id == id)
      || exists c :: c in cs && c.id == id && Replacing(m, cs)[id] == c.after
  {
    if cs != [] {
      var n := |cs| - 1;
      ReplacingIs(m, cs[..n], id);
      assert cs == cs[..n] + [cs[n]];
    }
  }

  lemma EntryListed(es: seq<Entry>, ids: set<string>, m: Entries, id: string)
    requires Lists(es, ids, m) && Keyed(m)
    ensures (exists e :: e in es && e.id == id) <==> id in ids
  {
  }

  lemma ChangeListed(cs: seq<Change>, ids: set<string>, a: Entries, b: Entries, id: string)
    requires ListsChanges(cs, ids, a, b)
    ensures (exists c :: c in cs && c.id == id) <==> id in ids
  {
  }

  /** What the patch leaves under one id. */
  lemma PatchedAt(differ: Compare, a: Entries, b: Entries, d: Diff, id: string)
    requires Keyed(a) && Keyed(b) && IsDiff(differ, a, b, d)
    ensures id in Patched(a, d) <==> id in b
    ensures id in b ==> Patched(a, d)[id] == if id in a && !differ(a[id], b[id]) then a[id] else b[id]
  {
    var kept := Without(a, d.removed);
    var replaced := Replacing(kept, d.changed);
    WithoutIs(a, d.removed, id);
    EntryListed(d.removed, AddedIds(b, a), a, id);
    ReplacingIs(kept, d.changed, id);
    ChangeListed(d.changed, ChangedIds(differ, a, b), a, b, id);
    WithIs(replaced, d.added, id);
    EntryListed(d.added, AddedIds(a, b), b, id);
  }

  /** Whatever order the diff lists things in, patching the old snapshot with it gives the new one. */
  lemma DiffIsAPatch(differ: Compare, a: Entries, b: Entries, d: Diff)
    requires Keyed(a) && Keyed(b) && IsDiff(differ, a, b, d)
    requires forall e: Entry :: !differ(e, e)
    ensures SameEntries(differ, Patched(a, d), b)
  {
    forall id
      ensures id in Patched(a, d) <==> id in b
      ensures id in b ==> !differ(Patched(a, d)[id], b[id])
    {
      PatchedAt(differ, a, b, d, id);
    }
  }

  /** For the snapshots themselves. */
  lemma SnapshotsPatch(from: seq<Entry>, to: seq<Entry>, d: Diff)
    requires IsDiff(Changed, ById(from), ById(to), d)
    ensures SameEntries(Changed, Patched(ById(from), d), ById(to))
  {
    ByIdIsKeyed(from);
    ByIdIsKeyed(to);
    DiffIsAPatch(Changed, ById(from), ById(to), d);
  }

  // ---------- counts ----------

  /** Every entry of the old side is removed, changed or the same, every one of the new side added, changed or the
      same. */
  lemma CountsPartition(differ: Compare, a: Entries, b: Entries, d: Diff)
    requires IsDiff(differ, a, b, d)
    ensures |d.removed| + |d.changed| + d.same == |a.Keys|
    ensures |d.added| + |d.changed| + d.same == |b.Keys|
  {
    Splits(differ, a, b);
    Partition(a.Keys, AddedIds(b, a), ChangedIds(differ, a, b), UnchangedIds(differ, a, b));
    Partition(b.Keys, AddedIds(a, b), ChangedIds(differ, a, b), UnchangedIds(differ, a, b));
  }

  lemma Splits(differ: Compare, a: Entries, b: Entries)
    ensures var x, y := ChangedIds(differ, a, b), UnchangedIds(differ, a, b);
            && x !! y && AddedIds(b, a) !! x && (AddedIds(b, a) + x) !! y && AddedIds(b, a) + x + y == a.Keys
            && AddedIds(a, b) !! x && (AddedIds(a, b) + x) !! y && AddedIds(a, b) + x + y == b.Keys
  {
  }

  lemma Partition(all: set<string>, x: set<string>, y: set<string>, z: set<string>)
    requires x !! y && (x + y) !! z && x + y + z == all
    ensures |x| + |y| + |z| == |all|
  {
    assert |x + y| == |x| + |y|;
    assert |x + y + z| == |x + y| + |z|;
  }

  predicate UniqueIds(entries: seq<Entry>) {
    forall i, j | 0 <= i < j < |entries| :: entries[i].id != entries[j].id
  }

  /** As many ids as entries exactly when no id is listed twice: only then do the counts add up to the lists. */
  lemma {:induction false} ListedOnceIff(entries: seq<Entry>)
    ensures |ById(entries).Keys| <= |entries|
    ensures |ById(entries).Keys| == |entries| <==> UniqueIds(entries)
  {
    if entries == [] {
      assert ById(entries).Keys == {};
    } else {
      var n := |entries| - 1;
      var ids := ById(entries[..n]).Keys;
      ListedOnceIff(entries[..n]);
      assert ById(entries).Keys == ids + {entries[n].id};
      IdIsListed(entries, n);
      UniqueStep(entries);
      if entries[n].id in ids {
        assert ids + {entries[n].id} == ids;
      } else {
        assert |ids + {entries[n].id}| == |ids| + 1;
      }
    }
  }

  lemma IdIsListed(entries: seq<Entry>, n: nat)
    requires n < |entries|
    ensures entries[n].id in ById(entries[..n]).Keys <==> exists i :: 0 <= i < n && entries[i].id == entries[n].id
  {
    ByIdIsKeyed(entries[..n]);
    var first := entries[..n];
    if entries[n].id in ById(first).Keys {
      var e :| e in first && e.id == entries[n].id;
      var i :| 0 <= i < n && first[i] == e;
      assert entries[i].id == entries[n].id;
    }
    if i :| 0 <= i < n && entries[i].id == entries[n].id {
      assert first[i] in first;
    }
  }

  lemma UniqueStep(entries: seq<Entry>)
    requires entries != []
    ensures var n := |entries| - 1;
            UniqueIds(entries)
            <==> UniqueIds(entries[..n]) && !exists i :: 0 <= i < n && entries[i].id == entries[n].id
  {
  }

  // ---------- the other way round ----------

  function Turned(c: Change): Change {
    Change(c.id, c.after, c.before)
  }

  /** Comparing the other way round swaps added with removed and turns every change about. */
  lemma DiffTurnedAround(differ: Compare, a: Entries, b: Entries, d: Diff, e: Diff)
    requires forall x: Entry, y: Entry :: differ(x, y) == differ(y, x)
    requires IsDiff(differ, a, b, d) && IsDiff(differ, b, a, e)
    ensures |e.added| == |d.removed| && forall x :: x in e.added <==> x in d.removed
    ensures |e.removed| == |d.added| && forall x :: x in e.removed <==> x in d.added
    ensures |e.changed| == |d.changed| && forall c :: c in e.changed <==> Turned(c) in d.changed
    ensures e.same == d.same
  {
    assert ChangedIds(differ, a, b) == ChangedIds(differ, b, a);
    assert UnchangedIds(differ, a, b) == UnchangedIds(differ, b, a);
    SameList(e.added, d.removed, AddedIds(b, a), a);
    SameList(e.removed, d.added, AddedIds(a, b), b);
    TurnedList(d.changed, e.changed, ChangedIds(differ, a, b), a, b);
  }

  lemma SameList(es: seq<Entry>, fs: seq<Entry>, ids: set<string>, m: Entries)
    requires Lists(es, ids, m) && Lists(fs, ids, m)
    ensures |es| == |fs| && forall x :: x in es <==> x in fs
  {
  }

  lemma TurnedList(cs: seq<Change>, ds: seq<Change>, ids: set<string>, a: Entries, b: Entries)
    requires ListsChanges(cs, ids, a, b) && ListsChanges(ds, ids, b, a)
    ensures |ds| == |cs| && forall c :: c in ds <==> Turned(c) in cs
  {
  }

  // ---------- what the comparison misses ----------

  predicate Plain(tags: seq<string>) {
    forall t | t in tags :: ' ' !in t
  }

  /** Tags without spaces print alike only if they are alike, apart from no tag and one empty tag. */
  lemma PrintedAlikeIff(s: seq<string>, t: seq<string>)
    requires Plain(s) && Plain(t)
    ensures Printed(s) == Printed(t) <==> s == t || (s == [] && t == [""]) || (s == [""] && t == [])
  {
    assert forall x: seq<string> :: Printed(x)[1..|Printed(x)| - 1] == Join(x, ' ');
    if Printed(s) == Printed(t) {
      var text := Join(s, ' ');
      assert text == Printed(s)[1..|Printed(s)| - 1] == Join(t, ' ');
      if s != [] {
        SplitJoin(s, ' ');
      }
      if t != [] {
        SplitJoin(t, ' ');
      }
      assert Split("", ' ') == [""];
    }
  }

  /** So, for plain tags that are not a single empty one, an entry counts as changed exactly when a field differs. */
  lemma ChangedIff(a: Entry, b: Entry)
    requires Plain(a.tags) && Plain(b.tags) && a.tags != [""] && b.tags != [""] && a.id == b.id
    ensures Changed(a, b) <==> a != b
  {
    PrintedAlikeIff(a.tags, b.tags);
  }

  lemma {:induction false} PartsHaveNoSeparator(text: string, sep: char)
    ensures forall p | p in Split(text, sep) :: sep !in p
    decreases |text|
  {
    var h := Head(text, sep);
    if |h| < |text| {
      PartsHaveNoSeparator(text[|h| + 1..], sep);
    }
  }

  /** Whenever a tag contains a space, cutting the tags at their spaces is a real change that goes unseen. */
  lemma SpacesHideChanges(a: Entry)
    requires !Plain(a.tags)
    ensures var b := a.(tags := Split(Join(a.tags, ' '), ' '));
            a != b && Plain(b.tags) && !Changed(a, b)
  {
    JoinSplit(Join(a.tags, ' '), ' ');
    PartsHaveNoSeparator(Join(a.tags, ' '), ' ');
  }

  lemma {:induction false} JoinHasSeparator(parts: seq<string>, sep: char)
    ensures sep in Join(parts, sep) <==> |parts| >= 2 || exists p :: p in parts && sep in p
  {
    if |parts| == 1 {
      assert parts[0] in parts;
    } else if |parts| >= 2 {
      assert Join(parts, sep)[|parts[0]|] == sep;
    }
  }

  lemma SplitInTwo(text: string, sep: char)
    requires sep in text
    ensures |Split(text, sep)| >= 2
  {
    var h := Head(text, sep);
    assert |h| == |text| ==> h == text;
  }

  /** Exactly which entries have a change that would go unseen: those whose tags print with a space, because there
      are several or one contains a space, and those whose tags print as nothing. */
  lemma UnseenChangeIff(a: Entry)
    ensures (exists b: Entry :: b.id == a.id && b != a && !Changed(a, b))
       <==> |a.tags| >= 2 || !Plain(a.tags) || a.tags == [] || a.tags == [""]
  {
    var text := Join(a.tags, ' ');
    JoinHasSeparator(a.tags, ' ');
    if ' ' in text {
      JoinSplit(text, ' ');
      SplitInTwo(text, ' ');
      var cut, whole := a.(tags := Split(text, ' ')), a.(tags := [text]);
      assert !Changed(a, cut) && !Changed(a, whole) && cut.tags != whole.tags;
    } else if text == "" {
      var none, blank := a.(tags := []), a.(tags := [""]);
      assert !Changed(a, none) && !Changed(a, blank) && |none.tags| != |blank.tags|;
    } else {
      forall b: Entry | b.id == a.id && !Changed(a, b)
        ensures b == a
      {
        assert Printed(a.tags)[1..|Printed(a.tags)| - 1] == text;
        assert Printed(b.tags)[1..|Printed(b.tags)| - 1] == Join(b.tags, ' ');
        JoinHasSeparator(b.tags, ' ');
      }
    }
  }
}

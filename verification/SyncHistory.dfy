/** Laws of a user's complete event history: the entry table is a function of it. */
module SyncHistory {
  import opened Common
  import opened SyncModel

  predicate IsKnowledge(e: Event) {
    e.payload.KnowledgePayload?
  }

  function ApplyToTable(t: Table, e: Event): Table {
    if IsKnowledge(e) then t[e.payload.entry.id := e.payload.entry] else t
  }

  /** The entry table that replaying a history from nothing produces. */
  function TableOf(h: seq<Event>): Table {
    if h == [] then map[] else ApplyToTable(TableOf(h[..|h| - 1]), h[|h| - 1])
  }

  /** A knowledge event either creates an entry at version 1, takes an active entry one version up, or
      repeats a deleted entry unchanged (the update whose statement matched no active row). */
  predicate Follows(t: Table, e: Event) {
    && (IsKnowledge(e) <==> e.objectType == OBJECT_KNOWLEDGE)
    && (IsKnowledge(e) ==>
          var row := e.payload.entry;
          && row.id == e.objectId
          && row.id != ""
          && (if row.id !in t then row.version == 1 && row.status == Active
              else if t[row.id].status == Active then row.version == t[row.id].version + 1
              else row == t[row.id]))
  }

  /** The repetition case of `Follows`. */
  predicate Repeats(t: Table, e: Event) {
    IsKnowledge(e) && e.payload.entry.id in t && t[e.payload.entry.id].status == Deleted
  }

  predicate NumberedFromOne(h: seq<Event>) {
    forall i | 0 <= i < |h| :: h[i].sequence == i + 1
  }

  /** Sequence numbers are exactly 1, 2, ..., and every event follows from the table before it. */
  predicate Chain(h: seq<Event>) {
    NumberedFromOne(h) && forall i {:trigger TableOf(h[..i])} | 0 <= i < |h| :: Follows(TableOf(h[..i]), h[i])
  }

  lemma ChainExtends(h: seq<Event>, e: Event)
    requires Chain(h)
    requires e.sequence == |h| + 1 && Follows(TableOf(h), e)
    ensures Chain(h + [e])
    ensures TableOf(h + [e]) == ApplyToTable(TableOf(h), e)
  {
    var g := h + [e];
    assert g[..|h|] == h;
    forall i | 0 <= i < |g| ensures Follows(TableOf(g[..i]), g[i]) {
      if i < |h| {
        assert g[..i] == h[..i];
      }
    }
  }

  lemma ChainPrefix(h: seq<Event>, n: nat)
    requires Chain(h) && n <= |h|
    ensures Chain(h[..n])
  {
    forall i | 0 <= i < n ensures Follows(TableOf(h[..n][..i]), h[..n][i]) {
      assert h[..n][..i] == h[..i];
    }
  }

  lemma TableStep(h: seq<Event>, n: nat)
    requires n < |h|
    ensures TableOf(h[..n + 1]) == ApplyToTable(TableOf(h[..n]), h[n])
  {
    assert h[..n + 1][..n] == h[..n];
  }

  /** Rows are stored under their own id. */
  predicate Keyed(t: Table) {
    forall id <- t :: t[id].id == id && id != "" && t[id].version >= 1
  }

  lemma {:induction false} TableIsKeyed(h: seq<Event>)
    requires Chain(h)
    ensures Keyed(TableOf(h))
  {
    if h != [] {
      ChainPrefix(h, |h| - 1);
      TableIsKeyed(h[..|h| - 1]);
    }
  }

  // ---------- versions ----------

  /** The events of one entry that changed it. */
  function Changes(h: seq<Event>, id: string): nat {
    if h == [] then 0
    else
      var n := |h| - 1;
      Changes(h[..n], id) +
      if IsKnowledge(h[n]) && h[n].payload.entry.id == id && !Repeats(TableOf(h[..n]), h[n]) then 1 else 0
  }

  /** An entry's version counts its changes, and an entry without changes does not exist. */
  lemma {:induction false} VersionCountsChanges(h: seq<Event>, id: string)
    requires Chain(h)
    ensures id in TableOf(h) <==> Changes(h, id) > 0
    ensures id in TableOf(h) ==> TableOf(h)[id].version == Changes(h, id)
  {
    if h != [] {
      var n := |h| - 1;
      ChainPrefix(h, n);
      VersionCountsChanges(h[..n], id);
    }
  }

  lemma StepKeepsRow(t: Table, e: Event, id: string)
    requires Follows(t, e) && id in t
    ensures var t' := ApplyToTable(t, e);
            && id in t'
            && t'[id].version >= t[id].version
            && (t'[id].version == t[id].version ==> t'[id] == t[id])
            && (t[id].status == Deleted ==> t'[id] == t[id])
  {
  }

  /** Versions never go down, an unchanged version means an unchanged row, and a deleted row is final. */
  lemma {:induction false} RowsOnlyAdvance(h: seq<Event>, n: nat, id: string)
    requires Chain(h) && n <= |h|
    requires id in TableOf(h[..n])
    ensures id in TableOf(h)
    ensures TableOf(h)[id].version >= TableOf(h[..n])[id].version
    ensures TableOf(h)[id].version == TableOf(h[..n])[id].version ==> TableOf(h)[id] == TableOf(h[..n])[id]
    ensures TableOf(h[..n])[id].status == Deleted ==> TableOf(h)[id] == TableOf(h[..n])[id]
    decreases |h| - n
  {
    if n < |h| {
      TableStep(h, n);
      StepKeepsRow(TableOf(h[..n]), h[n], id);
      RowsOnlyAdvance(h, n + 1, id);
    } else {
      assert h[..n] == h;
    }
  }
}

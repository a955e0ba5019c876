/** The repository of the embedding queue, the worker that drains it, and the indexer that fills it. */
module EmbeddingRepo {
  import opened Common
  import opened VectorCodec
  import opened EmbeddingModel

  /** Of finitely many jobs one comes first. */
  lemma {:induction false} OneComesFirst(jobs: Jobs, keys: set<Key>) returns (first: Key)
    requires keys != {} && keys <= jobs.Keys
    ensures first in keys && forall k | k in keys :: NotAfter(jobs[first], jobs[k])
  {
    var some :| some in keys;
    first := some;
    if keys != {some} {
      var rest := keys - {some};
      assert rest != {} by {
        assert keys == rest + {some};
      }
      first := OneComesFirst(jobs, rest);
      if NotAfter(jobs[some], jobs[first]) {
        first := some;
      }
    }
  }

  lemma RowsStep(ids: seq<Id>, n: nat, documents: map<Id, Document>, provider: string, model: string,
                 dimensions: int, priority: int, maxAttempts: int, now: int)
    requires n < |ids| && forall id | id in ids :: id in documents
    ensures NewRows(ids[..n + 1], documents, provider, model, dimensions, priority, maxAttempts, now)
         == NewRows(ids[..n], documents, provider, model, dimensions, priority, maxAttempts, now)
            + RowsFor(ids[n], documents[ids[n]], provider, model, dimensions, priority, maxAttempts, now)
  {
    assert ids[..n + 1][..n] == ids[..n];
  }

  class Repo {
    const codec: Codec<Float32>
    var documents: map<Id, Document>
    var jobs: Jobs
    var embeddings: map<Key, Embedding>

    function View(): Tables
      reads this
    {
      Tables(documents, jobs, embeddings)
    }

    constructor (codec: Codec<Float32>)
      ensures this.codec == codec && View() == Tables(map[], map[], map[])
    {
      this.codec := codec;
      documents, jobs, embeddings := map[], map[], map[];
    }

    method EnqueueJobs(ids: seq<Id>, given: map<Id, Document>, provider: string, model: string,
                       dimensions: int, priority: int, maxAttempts: int, now: int)
      requires forall id | id in ids :: id in given
      modifies this`jobs
      ensures jobs == if ids == [] || provider == "" || model == "" then old(jobs)
                      else InsertAbsent(old(jobs),
                                        NewRows(ids, given, provider, model, dimensions, priority, maxAttempts, now))
    {
      if ids == [] || provider == "" || model == "" {
        return;
      }
      var dims := if dimensions <= 0 then 1024 else dimensions;
      var prio := if priority <= 0 then 100 else priority;
      var most := if maxAttempts <= 0 then 5 else maxAttempts;
      var rows: seq<Claim> := [];
      assert ids[..0] == [];
      for i := 0 to |ids|
        invariant jobs == old(jobs)
        invariant rows == NewRows(ids[..i], given, provider, model, dimensions, priority, maxAttempts, now)
      {
        RowsStep(ids, i, given, provider, model, dimensions, priority, maxAttempts, now);
        var d := given[ids[i]];
        if ids[i] == NIL || d.contentHash == "" {
          continue;
        }
        rows := rows + [Claim(Key(ids[i], provider, model, d.contentHash),
                              Job(d.snapshot, dims, Pending, prio, now, 0, most, now, None, ""))];
      }
      assert ids[..|ids|] == ids;
      assert rows[..0] == [];
      for i := 0 to |rows|
        invariant jobs == InsertAbsent(old(jobs), rows[..i])
      {
        assert rows[..i + 1][..i] == rows[..i];
        if rows[i].key !in jobs {
          jobs := jobs[rows[i].key := rows[i].job];
        }
      }
      assert rows[..|rows|] == rows;
    }

    /** `SELECT ... ORDER BY priority, created_at LIMIT limit FOR UPDATE SKIP LOCKED`. */
    method SelectBatch(locked: set<Key>, now: int, limit: nat) returns (keys: seq<Key>)
      ensures IsBatch(jobs, locked, now, limit, keys)
    {
      var left := set k | k in jobs && k !in locked && Candidate(jobs[k], now);
      keys := [];
      while |keys| < limit && left != {}
        invariant |keys| <= limit && InOrder(jobs, keys) && NoRepeats(keys)
        invariant forall k | k in keys :: k !in left && k !in locked && Candidate(jobs[k], now)
        invariant forall k | k in left :: k in jobs && k !in locked && Candidate(jobs[k], now)
        invariant forall k | k in jobs && k !in locked && Candidate(jobs[k], now) :: k in left || k in keys
        invariant keys != [] ==> forall k | k in left :: NotAfter(jobs[keys[|keys| - 1]], jobs[k])
        decreases left
      {
        ghost var first := OneComesFirst(jobs, left);
        var k :| k in left && forall other | other in left :: NotAfter(jobs[k], jobs[other]);
        keys := keys + [k];
        left := left - {k};
      }
    }

    method MarkClaimed(keys: seq<Key>, worker: string, now: int)
      requires NoRepeats(keys) && forall k | k in keys :: k in jobs
      modifies this`jobs
      ensures jobs == ClaimAll(old(jobs), keys, worker, now)
    {
      for i := 0 to |keys|
        invariant jobs == ClaimAll(old(jobs), keys[..i], worker, now)
      {
        assert forall k :: k in keys[..i + 1] <==> k in keys[..i] || k == keys[i];
        jobs := jobs[keys[i] := Claimed(jobs[keys[i]], worker, now)];
      }
      assert keys[..|keys|] == keys;
    }

    method ClaimJobs(workerId: string, limit: int, given: Option<int>, clock: int) returns (claims: seq<Claim>)
      modifies this`jobs
      ensures var now := if given.Some? then given.value else clock;
              var worker := if workerId == "" then "embedding-worker" else workerId;
              ClaimEffect(old(jobs), jobs, worker, now, BatchLimit(limit), claims)
    {
      var most := if limit <= 0 || limit > 100 then 8 else limit;
      var now := if given.Some? then given.value else clock;
      var worker := if workerId == "" then "embedding-worker" else workerId;
      var keys := SelectBatch({}, now, most);
      if |keys| == 0 {
        assert KeysOf([]) == keys && ClaimAll(jobs, keys, worker, now) == jobs;
        return [];
      }
      MarkClaimed(keys, worker, now);
      claims := Claims(jobs, keys);
      assert KeysOf(claims) == keys;
    }

    /** `stored` says whether the write reaches the database, which takes no embedding of a missing document or of
        another dimension than its own. */
    method CompleteJob(claim: Claim, vector: seq<Float32>, stored: bool) returns (ok: bool)
      modifies this`jobs, this`embeddings
      ensures ok == (stored && claim.key.document in documents && Storable(claim, vector))
      ensures View() == if ok then Completed(codec, old(View()), claim, vector) else old(View())
    {
      if !stored || claim.key.document !in documents || !Storable(claim, vector) {
        return false;
      }
      var text := FormatVector(codec, vector);
      if claim.key in embeddings {
        embeddings := embeddings[claim.key := embeddings[claim.key].(text := text)];
      } else {
        embeddings := embeddings[claim.key := Embedding(claim.job.snapshot, claim.job.dimensions, text)];
      }
      if claim.key in jobs {
        jobs := jobs[claim.key := jobs[claim.key].(status := Ready, lockedAt := None, lockedBy := "")];
      }
      ok := true;
    }

    method FailJob(claim: Claim, now: int, backoff: int)
      modifies this`jobs
      ensures View() == Failure(old(View()), claim, now, backoff)
    {
      var status := Retrying;
      if claim.job.attempts >= claim.job.maxAttempts {
        status := Failed;
      }
      if claim.key in jobs {
        jobs := jobs[claim.key :=
          jobs[claim.key].(status := status, available := now + backoff, lockedAt := None, lockedBy := "")];
      }
    }

    method RetryFailedJobs(snapshot: Id, provider: string, model: string, now: int) returns (count: nat)
      modifies this`jobs
      ensures jobs == RetryFailed(old(jobs), snapshot, provider, model, now)
      ensures count == |FailedKeys(old(jobs), snapshot, provider, model)|
    {
      if snapshot == NIL {
        assert FailedKeys(jobs, snapshot, provider, model) == {};
        assert RetryFailed(jobs, snapshot, provider, model, now) == jobs;
        return 0;
      }
      var rows := set k | k in jobs && jobs[k].status.Failed? && Concerns(k, jobs[k], snapshot, provider, model);
      assert rows == FailedKeys(jobs, snapshot, provider, model);
      count := |rows|;
      var left := rows;
      while left != {}
        invariant left <= rows && jobs.Keys == old(jobs.Keys)
        invariant forall k | k in jobs ::
          jobs[k] == if k in rows && k !in left then Retried(old(jobs)[k], now) else old(jobs)[k]
        decreases left
      {
        var k :| k in left;
        jobs := jobs[k := Retried(jobs[k], now)];
        left := left - {k};
      }
    }

    /** Replaces a snapshot's documents and queues a job for each, in one transaction. */
    method ReplaceSnapshotDocuments(snapshot: Id, b: Batch, provider: string, model: string,
                                    dimensions: int, now: int)
      requires FreshBatch(View(), snapshot, b)
      modifies this
      ensures View() == Replaced(old(View()), snapshot, b, provider, model, dimensions, now)
    {
      documents := map d | d in documents && documents[d].snapshot != snapshot :: documents[d];
      jobs := map k | k in jobs && k.document in documents :: jobs[k];
      embeddings := map k | k in embeddings && k.document in documents :: embeddings[k];
      assert View() == Cleared(old(View()), snapshot);
      if |b.ids| == 0 {
        assert b.documents == map[];
        assert documents + b.documents == documents;
        return;
      }
      documents := documents + b.documents;
      if provider == "" || model == "" {
        return;
      }
      EnqueueJobs(b.ids, b.documents, provider, model, dimensions, 0, 0, now);
    }
  }

  /** What one attempt meets: whether the document can be read, what the provider answers, and whether the two
      possible writes reach the database. */
  datatype Luck = Luck(readable: bool, answer: Option<seq<seq<Float32>>>, stored: bool, recorded: bool, now: int)

  predicate Embeds(t: Tables, claim: Claim, luck: Luck) {
    && luck.readable && claim.key.document in t.documents
    && t.documents[claim.key.document].contentHash == claim.key.hash
    && luck.answer.Some? && |luck.answer.value| == 1 && |luck.answer.value[0]| == claim.job.dimensions
    && luck.stored && Storable(claim, luck.answer.value[0])
  }

  /** The document has changed since the job was queued. */
  predicate Outdated(t: Tables, claim: Claim, luck: Luck) {
    && luck.readable && claim.key.document in t.documents
    && t.documents[claim.key.document].contentHash != claim.key.hash
  }

  function Processed(c: Codec<Float32>, t: Tables, claim: Claim, luck: Luck): Tables {
    if Embeds(t, claim, luck) then Completed(c, t, claim, luck.answer.value[0])
    else if luck.recorded then Failure(t, claim, luck.now, Backoff(claim.job.attempts))
    else t
  }

  /** The attempt returns an error: it failed, unless it was the recorded failure of an outdated job. */
  predicate Errs(t: Tables, claim: Claim, luck: Luck) {
    !Embeds(t, claim, luck) && !(Outdated(t, claim, luck) && luck.recorded)
  }

  /** What an attempt does to a job whose row is still there. It gets ready, with the vector's text stored, exactly if
      the document can be read, still has the hash it was queued with, and the provider answers with one vector of the
      job's dimension, which is 1024; otherwise, if that can be recorded, it waits for its next turn or fails for good. No
      other row changes. */
  lemma AttemptMeaning(c: Codec<Float32>, t: Tables, claim: Claim, luck: Luck)
    requires claim.key in t.jobs && claim.key.document in t.documents
    ensures var after, k := Processed(c, t, claim, luck), claim.key;
            && after.documents == t.documents && after.jobs.Keys == t.jobs.Keys
            && (forall other | other in t.jobs && other != k :: after.jobs[other] == t.jobs[other])
            && (forall other | other != k :: other in after.embeddings <==> other in t.embeddings)
            && (forall other | other in t.embeddings && other != k :: after.embeddings[other] == t.embeddings[other])
            && if luck.readable && t.documents[k.document].contentHash == k.hash && luck.stored
                  && luck.answer.Some? && |luck.answer.value| == 1
                  && |luck.answer.value[0]| == 1024 && claim.job.dimensions == 1024
               then
                 && after.jobs[k] == t.jobs[k].(status := Ready, lockedAt := None, lockedBy := "")
                 && k in after.embeddings && after.embeddings[k].text == Format(c, luck.answer.value[0])
                 && !Errs(t, claim, luck)
               else
                 && after.embeddings == t.embeddings
                 && after.jobs[k] == (if !luck.recorded then t.jobs[k]
                                      else t.jobs[k].(
                                             status := if claim.job.attempts < claim.job.maxAttempts
                                                       then Retrying else Failed,
                                             available := luck.now + Backoff(claim.job.attempts),
                                             lockedAt := None, lockedBy := ""))
                 && (Errs(t, claim, luck)
                     <==> !luck.recorded || !luck.readable || t.documents[k.document].contentHash == k.hash)
  {
  }

  /** The rest of a batch from job `i` on: the tables when the worker stops and where it stops, which is after the
      first error it meets when cancelled, or at the end. */
  function Attempted(c: Codec<Float32>, t: Tables, claims: seq<Claim>, i: nat,
                     luck: nat -> Luck, cancelled: nat -> bool): (Tables, nat)
    requires i <= |claims|
    decreases |claims| - i
  {
    if i == |claims| then (t, i)
    else
      var after := Processed(c, t, claims[i], luck(i));
      if Errs(t, claims[i], luck(i)) && cancelled(i) then (after, i + 1)
      else Attempted(c, after, claims, i + 1, luck, cancelled)
  }

  /** The tables after the first `n` attempts of a batch. */
  function TablesAfter(c: Codec<Float32>, t: Tables, claims: seq<Claim>, n: nat, luck: nat -> Luck): Tables
    requires n <= |claims|
  {
    if n == 0 then t else Processed(c, TablesAfter(c, t, claims, n - 1, luck), claims[n - 1], luck(n - 1))
  }

  /** Attempt `n` errs while the worker is cancelled. */
  predicate Halts(c: Codec<Float32>, t: Tables, claims: seq<Claim>, n: nat, luck: nat -> Luck, cancelled: nat -> bool)
    requires n < |claims|
  {
    cancelled(n) && Errs(TablesAfter(c, t, claims, n, luck), claims[n], luck(n))
  }

  lemma AttemptedStep(
      c: Codec<Float32>, t: Tables, claims: seq<Claim>, i: nat, luck: nat -> Luck, cancelled: nat -> bool)
    requires i < |claims|
    ensures Attempted(c, TablesAfter(c, t, claims, i, luck), claims, i, luck, cancelled)
         == var after := TablesAfter(c, t, claims, i + 1, luck);
            if Halts(c, t, claims, i, luck, cancelled) then (after, i + 1)
            else Attempted(c, after, claims, i + 1, luck, cancelled)
  {
  }

  /** From attempt `i` on, the first that halts the pass is the one before `done`; there is none if the batch ends. */
  predicate EndsAt(c: Codec<Float32>, t: Tables, claims: seq<Claim>, i: nat, done: nat,
                   luck: nat -> Luck, cancelled: nat -> bool)
    requires i <= done <= |claims|
  {
    && (done < |claims| ==> i < done && Halts(c, t, claims, done - 1, luck, cancelled))
    && forall n | i <= n < done - 1 :: !Halts(c, t, claims, n, luck, cancelled)
  }

  /** A pass makes its attempts in order, one after another, and ends right after the first that halts it, or with the
      batch. */
  lemma {:induction false} AttemptedMeaning(
      c: Codec<Float32>, t: Tables, claims: seq<Claim>, i: nat, luck: nat -> Luck, cancelled: nat -> bool)
    returns (done: nat)
    requires i <= |claims|
    ensures i <= done <= |claims| && EndsAt(c, t, claims, i, done, luck, cancelled)
    ensures Attempted(c, TablesAfter(c, t, claims, i, luck), claims, i, luck, cancelled)
         == (TablesAfter(c, t, claims, done, luck), done)
    decreases |claims| - i
  {
    if i == |claims| {
      return i;
    }
    AttemptedStep(c, t, claims, i, luck, cancelled);
    if Halts(c, t, claims, i, luck, cancelled) {
      return i + 1;
    }
    done := AttemptedMeaning(c, t, claims, i + 1, luck, cancelled);
  }

  class Worker {
    const repo: Repo
    const id: string
    const batchSize: int

    constructor (repo: Repo, id: string, batchSize: int)
      ensures this.repo == repo && this.id == id && this.batchSize == if batchSize <= 0 then 8 else batchSize
    {
      this.repo := repo;
      this.id := id;
      this.batchSize := if batchSize <= 0 then 8 else batchSize;
    }

    /** Of the failed attempts only a recorded one on an outdated job is not reported as an error. */
    method ProcessJob(claim: Claim, luck: Luck) returns (ok: bool)
      modifies repo
      ensures repo.View() == Processed(repo.codec, old(repo.View()), claim, luck)
      ensures ok == !Errs(old(repo.View()), claim, luck)
    {
      ok := false;
      if luck.readable && claim.key.document in repo.documents {
        if repo.documents[claim.key.document].contentHash != claim.key.hash {
          if luck.recorded {
            repo.FailJob(claim, luck.now, Backoff(claim.job.attempts));
          }
          return luck.recorded;
        }
        if luck.answer.Some? && |luck.answer.value| == 1 && |luck.answer.value[0]| == claim.job.dimensions {
          ok := repo.CompleteJob(claim, luck.answer.value[0], luck.stored);
        }
      }
      if !ok && luck.recorded {
        repo.FailJob(claim, luck.now, Backoff(claim.job.attempts));
      }
    }

    /** Works through a claimed batch. */
    method Work(claims: seq<Claim>, luck: nat -> Luck, cancelled: nat -> bool) returns (done: nat)
      modifies repo
      ensures (repo.View(), done) == Attempted(repo.codec, old(repo.View()), claims, 0, luck, cancelled)
    {
      done := 0;
      while done < |claims|
        invariant done <= |claims|
        invariant Attempted(repo.codec, old(repo.View()), claims, 0, luck, cancelled)
               == Attempted(repo.codec, repo.View(), claims, done, luck, cancelled)
      {
        var ok := ProcessJob(claims[done], luck(done));
        done := done + 1;
        if !ok && cancelled(done - 1) {
          return;
        }
      }
    }

    method ProcessOnce(clock: int, luck: nat -> Luck, cancelled: nat -> bool)
      returns (claims: seq<Claim>, done: nat, ghost claimed: Tables)
      modifies repo
      ensures claimed == old(repo.View()).(jobs := claimed.jobs)
      ensures ClaimEffect(old(repo.jobs), claimed.jobs, if id == "" then "embedding-worker" else id,
                          clock, BatchLimit(batchSize), claims)
      ensures (repo.View(), done) == Attempted(repo.codec, claimed, claims, 0, luck, cancelled)
    {
      claims := repo.ClaimJobs(id, batchSize, None, clock);
      claimed := repo.View();
      done := Work(claims, luck, cancelled);
    }
  }

  // ---------- indexing ----------

  /** The text of a UUID, never empty. */
  type IdText = s: string | s != "" witness "0"

  datatype SnapshotEntry = SnapshotEntry(idText: IdText, hashInMetadata: Option<string>)

  function EntryHash(snapshotHash: string, e: SnapshotEntry): (hash: string)
    ensures hash != ""
    ensures e.hashInMetadata.Some? && !Blank(e.hashInMetadata.value) ==> hash == e.hashInMetadata.value
  {
    if e.hashInMetadata.Some? && !Blank(e.hashInMetadata.value) then e.hashInMetadata.value
    else if !Blank(snapshotHash) then snapshotHash + ":" + e.idText
    else e.idText
  }

  /** Entries of one snapshot without a hash of their own have the same hash only if they have the same id. */
  lemma FallbackHashesDiffer(snapshotHash: string, a: SnapshotEntry, b: SnapshotEntry)
    requires a.hashInMetadata.None? || Blank(a.hashInMetadata.value)
    requires b.hashInMetadata.None? || Blank(b.hashInMetadata.value)
    ensures EntryHash(snapshotHash, a) == EntryHash(snapshotHash, b) <==> a.idText == b.idText
  {
    var prefix := snapshotHash + ":";
    assert (prefix + a.idText)[|prefix|..] == a.idText && (prefix + b.idText)[|prefix|..] == b.idText;
  }

  function DocumentsOf(snapshot: Id, snapshotHash: string, entries: seq<SnapshotEntry>, ids: seq<Id>, n: nat)
    : map<Id, Document>
    requires n <= |entries| == |ids|
  {
    if n == 0 then map[]
    else
      DocumentsOf(snapshot, snapshotHash, entries, ids, n - 1)[
        ids[n - 1] := Document(snapshot, EntryHash(snapshotHash, entries[n - 1]))]
  }

  lemma {:induction false} DocumentsCover(
      snapshot: Id, snapshotHash: string, entries: seq<SnapshotEntry>, ids: seq<Id>, n: nat)
    requires n <= |entries| == |ids|
    ensures forall id :: id in DocumentsOf(snapshot, snapshotHash, entries, ids, n) <==> id in ids[..n]
  {
    if n > 0 {
      DocumentsCover(snapshot, snapshotHash, entries, ids, n - 1);
      assert ids[..n] == ids[..n - 1] + [ids[n - 1]];
    }
  }

  lemma {:induction false} DocumentIs(
      snapshot: Id, snapshotHash: string, entries: seq<SnapshotEntry>, ids: seq<Id>, n: nat, i: nat)
    requires i < n <= |entries| == |ids| && forall i | 0 <= i < |ids| :: ids[i] !in ids[..i]
    ensures var docs := DocumentsOf(snapshot, snapshotHash, entries, ids, n);
            ids[i] in docs && docs[ids[i]] == Document(snapshot, EntryHash(snapshotHash, entries[i]))
  {
    if i < n - 1 {
      DocumentIs(snapshot, snapshotHash, entries, ids, n - 1, i);
      assert ids[i] == ids[..n - 1][i];
    }
  }

  lemma DocumentsAreFresh(t: Tables, snapshot: Id, snapshotHash: string, entries: seq<SnapshotEntry>, ids: seq<Id>)
    requires |ids| == |entries| && forall i | 0 <= i < |ids| :: ids[i] != NIL && ids[i] !in ids[..i]
    requires forall id | id in ids :: id !in t.documents
    ensures var docs := DocumentsOf(snapshot, snapshotHash, entries, ids, |ids|);
            && FreshBatch(t, snapshot, Batch(ids, docs))
            && forall i | 0 <= i < |ids| :: docs[ids[i]].contentHash == EntryHash(snapshotHash, entries[i])
  {
    DocumentsCover(snapshot, snapshotHash, entries, ids, |ids|);
    assert ids[..|ids|] == ids;
    forall i | 0 <= i < |ids|
      ensures ids[i] in DocumentsOf(snapshot, snapshotHash, entries, ids, |ids|)
      ensures DocumentsOf(snapshot, snapshotHash, entries, ids, |ids|)[ids[i]]
           == Document(snapshot, EntryHash(snapshotHash, entries[i]))
    {
      DocumentIs(snapshot, snapshotHash, entries, ids, |ids|, i);
    }
  }

  /** Builds one document per entry and puts them, with their jobs, in the place of the snapshot's old ones.
      `provider` is `None` when no embedding provider is configured or it is the disabled one. */
  method IndexSnapshot(repo: Repo, snapshot: Id, snapshotHash: string, entries: seq<SnapshotEntry>, ids: seq<Id>,
                       provider: Option<(string, string)>, dimensions: int, now: int)
    returns (ghost b: Batch)
    requires |ids| == |entries| && forall i | 0 <= i < |ids| :: ids[i] != NIL && ids[i] !in ids[..i]
    requires forall id | id in ids :: id !in repo.documents
    modifies repo
    ensures b.ids == ids && FreshBatch(old(repo.View()), snapshot, b)
    ensures forall i | 0 <= i < |ids| :: b.documents[ids[i]].contentHash == EntryHash(snapshotHash, entries[i])
    ensures var (name, model) := if provider.Some? then provider.value else ("", "");
            repo.View() == Replaced(old(repo.View()), snapshot, b, name, model, dimensions, now)
  {
    var docs: map<Id, Document> := map[];
    for i := 0 to |entries|
      invariant docs == DocumentsOf(snapshot, snapshotHash, entries, ids, i)
      invariant repo.View() == old(repo.View())
    {
      docs := docs[ids[i] := Document(snapshot, EntryHash(snapshotHash, entries[i]))];
    }
    DocumentsAreFresh(repo.View(), snapshot, snapshotHash, entries, ids);
    b := Batch(ids, docs);
    if provider.Some? {
      repo.ReplaceSnapshotDocuments(snapshot, Batch(ids, docs), provider.value.0, provider.value.1, dimensions, now);
    } else {
      repo.ReplaceSnapshotDocuments(snapshot, Batch(ids, docs), "", "", dimensions, now);
    }
  }
}

/** The tables behind semantic search: documents, the queue of embedding jobs, and finished embeddings. */
module EmbeddingModel {
  import opened Common
  import opened VectorCodec

  /** The bits of an IEEE 754 single, read as a number; no arithmetic is done on it here. */
  type Float32 = nat

  /** Identifiers; 0 is the nil UUID. */
  type Id = nat

  const NIL: Id := 0

  datatype Document = Document(snapshot: Id, contentHash: string)

  datatype Status = Pending | Processing | Ready | Retrying | Failed

  /** The unique key of a job and of an embedding. A row's own id never outlives or changes its key. */
  datatype Key = Key(document: Id, provider: string, model: string, hash: string)

  datatype Job = Job(
    snapshot: Id, dimensions: int, status: Status, priority: int, created: int,
    attempts: int, maxAttempts: int, available: int, lockedAt: Option<int>, lockedBy: string)

  datatype Embedding = Embedding(snapshot: Id, dimensions: int, text: string)

  type Jobs = map<Key, Job>

  datatype Tables = Tables(documents: map<Id, Document>, jobs: Jobs, embeddings: map<Key, Embedding>)

  /** A job as a worker read it when it claimed it. */
  datatype Claim = Claim(key: Key, job: Job)

  // ---------- enqueueing ----------

  function OrDefault(x: int, default: int): int {
    if x <= 0 then default else x
  }

  /** The row for one document; a document without id or hash gets none. */
  function RowsFor(id: Id, d: Document, provider: string, model: string,
                   dimensions: int, priority: int, maxAttempts: int, now: int): (rows: seq<Claim>)
    ensures |rows| <= 1
  {
    if id == NIL || d.contentHash == "" then []
    else
      [Claim(Key(id, provider, model, d.contentHash),
             Job(d.snapshot, OrDefault(dimensions, 1024), Pending, OrDefault(priority, 100), now,
                 0, OrDefault(maxAttempts, 5), now, None, ""))]
  }

  /** The rows made for the given documents, in order. */
  function NewRows(ids: seq<Id>, documents: map<Id, Document>, provider: string, model: string,
                   dimensions: int, priority: int, maxAttempts: int, now: int): (rows: seq<Claim>)
    requires forall id | id in ids :: id in documents
    ensures |rows| <= |ids|
  {
    if ids == [] then []
    else
      var n := |ids| - 1;
      NewRows(ids[..n], documents, provider, model, dimensions, priority, maxAttempts, now)
      + RowsFor(ids[n], documents[ids[n]], provider, model, dimensions, priority, maxAttempts, now)
  }

  /** Inserting rows one after another, keeping whatever already has the key. */
  function InsertAbsent(jobs: Jobs, rows: seq<Claim>): Jobs {
    if rows == [] then jobs
    else
      var before := InsertAbsent(jobs, rows[..|rows| - 1]);
      var row := rows[|rows| - 1];
      if row.key in before then before else before[row.key := row.job]
  }

  // ---------- claiming ----------

  predicate Candidate(j: Job, now: int) {
    (j.status.Pending? || j.status.Retrying?) && j.available <= now
  }

  /** The order in which jobs are handed out. */
  predicate NotAfter(a: Job, b: Job) {
    a.priority < b.priority || (a.priority == b.priority && a.created <= b.created)
  }

  function BatchLimit(limit: int): (n: nat)
    ensures 1 <= n <= 100
  {
    if limit <= 0 || limit > 100 then 8 else limit
  }

  predicate InOrder(jobs: Jobs, keys: seq<Key>) {
    && (forall k | k in keys :: k in jobs)
    && forall i | 0 < i < |keys| :: NotAfter(jobs[keys[i - 1]], jobs[keys[i]])
  }

  predicate NoRepeats(keys: seq<Key>) {
    forall i | 0 <= i < |keys| :: keys[i] !in keys[..i]
  }

  /** `keys` are the first `limit` candidates, in order, among the rows nobody has locked. */
  predicate IsBatch(jobs: Jobs, locked: set<Key>, now: int, limit: nat, keys: seq<Key>) {
    && InOrder(jobs, keys) && NoRepeats(keys) && |keys| <= limit
    && (forall k | k in keys :: k !in locked && Candidate(jobs[k], now))
    && (forall k | k in jobs && k !in locked && k !in keys && Candidate(jobs[k], now) ::
          |keys| == limit && (keys != [] ==> NotAfter(jobs[keys[|keys| - 1]], jobs[k])))
  }

  function Claimed(j: Job, worker: string, now: int): Job {
    j.(status := Processing, attempts := j.attempts + 1, lockedAt := Some(now), lockedBy := worker)
  }

  function ClaimAll(jobs: Jobs, keys: seq<Key>, worker: string, now: int): Jobs {
    map k | k in jobs :: if k in keys then Claimed(jobs[k], worker, now) else jobs[k]
  }

  function Claims(jobs: Jobs, keys: seq<Key>): (claims: seq<Claim>)
    requires forall k | k in keys :: k in jobs
    ensures |claims| == |keys|
    ensures forall i | 0 <= i < |keys| :: claims[i] == Claim(keys[i], jobs[keys[i]])
  {
    if keys == [] then [] else [Claim(keys[0], jobs[keys[0]])] + Claims(jobs, keys[1..])
  }

  function KeysOf(claims: seq<Claim>): (keys: seq<Key>)
    ensures |keys| == |claims| && forall i | 0 <= i < |keys| :: keys[i] == claims[i].key
  {
    seq(|claims|, i requires 0 <= i < |claims| => claims[i].key)
  }

  /** A batch was picked, its rows marked, and the marked rows read back. */
  predicate ClaimEffect(was: Jobs, jobs: Jobs, worker: string, now: int, limit: nat, claims: seq<Claim>) {
    && IsBatch(was, {}, now, limit, KeysOf(claims))
    && jobs == ClaimAll(was, KeysOf(claims), worker, now)
    && claims == Claims(jobs, KeysOf(claims))
  }

  lemma {:induction false} BatchOrder(jobs: Jobs, keys: seq<Key>, i: nat, j: nat)
    requires InOrder(jobs, keys) && i <= j < |keys|
    ensures var a, b := jobs[keys[i]], jobs[keys[j]];
            a.priority < b.priority || (a.priority == b.priority && a.created <= b.created)
    decreases j - i
  {
    if i < j {
      BatchOrder(jobs, keys, i, j - 1);
    }
  }

  /** What a batch is: waiting jobs whose time has come and that nobody has locked, ascending by priority and then by
      age, each once; one is left out only by a full batch, and only if it comes after all of it. */
  lemma BatchMeaning(jobs: Jobs, locked: set<Key>, now: int, limit: nat, keys: seq<Key>)
    requires IsBatch(jobs, locked, now, limit, keys)
    ensures forall i, j | 0 <= i < j < |keys| ::
              var a, b := jobs[keys[i]], jobs[keys[j]];
              keys[i] != keys[j] && (a.priority < b.priority || (a.priority == b.priority && a.created <= b.created))
    ensures forall k | k in keys ::
              k in jobs && k !in locked && jobs[k].status in {Pending, Retrying} && jobs[k].available <= now
    ensures forall k | k in jobs && k !in locked && k !in keys
                       && jobs[k].status in {Pending, Retrying} && jobs[k].available <= now ::
              |keys| == limit
              && forall other | other in keys ::
                   jobs[other].priority < jobs[k].priority
                   || (jobs[other].priority == jobs[k].priority && jobs[other].created <= jobs[k].created)
  {
    forall i, j | 0 <= i < j < |keys|
      ensures var a, b := jobs[keys[i]], jobs[keys[j]];
              keys[i] != keys[j] && (a.priority < b.priority || (a.priority == b.priority && a.created <= b.created))
    {
      BatchOrder(jobs, keys, i, j);
      assert keys[..j][i] == keys[i];
    }
    forall k, other | k in jobs && k !in locked && k !in keys && Candidate(jobs[k], now) && other in keys
      ensures jobs[other].priority < jobs[k].priority
              || (jobs[other].priority == jobs[k].priority && jobs[other].created <= jobs[k].created)
    {
      var i :| 0 <= i < |keys| && keys[i] == other;
      BatchOrder(jobs, keys, i, |keys| - 1);
    }
  }

  /** What a claim does: the batch's rows, and no others, are taken up by the worker and counted as one attempt more. A
      limit outside 1 .. 100 means 8. */
  lemma ClaimMeaning(was: Jobs, jobs: Jobs, worker: string, now: int, limit: int, claims: seq<Claim>)
    requires ClaimEffect(was, jobs, worker, now, BatchLimit(limit), claims)
    ensures IsBatch(was, {}, now, if 1 <= limit <= 100 then limit else 8, KeysOf(claims))
    ensures forall c | c in claims :: c.key in jobs && c.job == jobs[c.key]
    ensures jobs.Keys == was.Keys
    ensures forall k | k in was ::
              jobs[k] == if exists c :: c in claims && c.key == k
                         then was[k].(status := Processing, attempts := was[k].attempts + 1,
                                      lockedAt := Some(now), lockedBy := worker)
                         else was[k]
  {
    ClaimedKeys(claims);
  }

  lemma ClaimedKeys(claims: seq<Claim>)
    ensures forall k :: k in KeysOf(claims) <==> exists c :: c in claims && c.key == k
  {
    var keys := KeysOf(claims);
    forall k
      ensures k in keys <==> exists c :: c in claims && c.key == k
    {
      if k in keys {
        var i :| 0 <= i < |keys| && keys[i] == k;
        assert claims[i] in claims;
      }
      if c :| c in claims && c.key == k {
        var i :| 0 <= i < |claims| && claims[i] == c;
        assert keys[i] == k;
      }
    }
  }

  // ---------- finishing ----------

  /** The only dimension the embeddings table takes: a column type and a check of the migrations. */
  const STORED_DIMENSIONS := 1024

  predicate Storable(claim: Claim, vector: seq<Float32>) {
    claim.job.dimensions == |vector| == STORED_DIMENSIONS
  }

  /** Storing the embedding and closing the job, in one transaction. */
  function Completed(c: Codec<Float32>, t: Tables, claim: Claim, vector: seq<Float32>): Tables {
    var k := claim.key;
    var text := Format(c, vector);
    var row := if k in t.embeddings then t.embeddings[k].(text := text)
               else Embedding(claim.job.snapshot, claim.job.dimensions, text);
    t.(embeddings := t.embeddings[k := row],
       jobs := if k in t.jobs then t.jobs[k := t.jobs[k].(status := Ready, lockedAt := None, lockedBy := "")]
               else t.jobs)
  }

  /** The row after a failed attempt: the worker's copy decides whether the attempts are used up. */
  function FailedRow(j: Job, copy: Job, now: int, backoff: int): Job {
    j.(status := if copy.attempts >= copy.maxAttempts then Failed else Retrying,
       available := now + backoff, lockedAt := None, lockedBy := "")
  }

  function Failure(t: Tables, claim: Claim, now: int, backoff: int): Tables {
    if claim.key in t.jobs
    then t.(jobs := t.jobs[claim.key := FailedRow(t.jobs[claim.key], claim.job, now, backoff)])
    else t
  }

  const SECOND := 1_000_000_000

  function Shifted(n: nat): (r: int)
    ensures r >= 1
  {
    if n == 0 then 1 else 2 * Shifted(n - 1)
  }

  function Backoff(attempt: int): int {
    var a := if attempt <= 0 then 1 else attempt;
    var backoff := Shifted(if a < 8 then a else 8) * 30 * SECOND;
    if backoff > 7200 * SECOND then 7200 * SECOND else backoff
  }

  lemma {:induction false} ShiftedGrows(m: nat, n: nat)
    requires m <= n
    ensures Shifted(m) <= Shifted(n)
  {
    if m < n {
      ShiftedGrows(m, n - 1);
    }
  }

  /** Waits start at a minute, double up to the seventh attempt, never shrink, and stop growing at two hours. */
  lemma BackoffGrows(a: int, b: int)
    ensures a <= 1 ==> Backoff(a) == 60_000_000_000
    ensures 1 <= a <= 6 ==> Backoff(a + 1) == 2 * Backoff(a)
    ensures a >= 8 ==> Backoff(a) == 7_200_000_000_000
    ensures a <= b ==> Backoff(a) <= Backoff(b)
  {
    assert Shifted(1) == 2 && Shifted(2) == 4 && Shifted(3) == 8 && Shifted(4) == 16;
    assert Shifted(5) == 32 && Shifted(6) == 64 && Shifted(7) == 128 && Shifted(8) == 256;
    var x := if a <= 0 then 1 else if a < 8 then a else 8;
    ShiftedGrows(1, x);
    if a <= b {
      ShiftedGrows(x, if b <= 0 then 1 else if b < 8 then b else 8);
    }
  }

  // ---------- retrying and replacing ----------

  predicate Concerns(k: Key, j: Job, snapshot: Id, provider: string, model: string) {
    && j.snapshot == snapshot
    && (provider == "" || k.provider == provider)
    && (model == "" || k.model == model)
  }

  function Retried(j: Job, now: int): Job {
    j.(status := Pending, attempts := 0, available := now, lockedAt := None, lockedBy := "")
  }

  function FailedKeys(jobs: Jobs, snapshot: Id, provider: string, model: string): set<Key> {
    set k | k in jobs && snapshot != NIL && jobs[k].status.Failed? && Concerns(k, jobs[k], snapshot, provider, model)
  }

  function RetryFailed(jobs: Jobs, snapshot: Id, provider: string, model: string, now: int): Jobs {
    map k | k in jobs ::
      if k in FailedKeys(jobs, snapshot, provider, model) then Retried(jobs[k], now) else jobs[k]
  }

  /** Deleting a snapshot's documents takes their jobs and embeddings with them. */
  function Cleared(t: Tables, snapshot: Id): Tables {
    var documents := map d | d in t.documents && t.documents[d].snapshot != snapshot :: t.documents[d];
    Tables(documents,
           map k | k in t.jobs && k.document in documents :: t.jobs[k],
           map k | k in t.embeddings && k.document in documents :: t.embeddings[k])
  }

  /** The new documents of a snapshot, and the ids they get. */
  datatype Batch = Batch(ids: seq<Id>, documents: map<Id, Document>)

  predicate FreshBatch(t: Tables, snapshot: Id, b: Batch) {
    && (forall id | id in b.ids :: id in b.documents && id != NIL)
    && (forall i | 0 <= i < |b.ids| :: b.ids[i] !in b.ids[..i])
    && (forall id | id in b.documents ::
          && id in b.ids && id !in t.documents
          && b.documents[id].snapshot == snapshot && b.documents[id].contentHash != "")
  }

  function Replaced(t: Tables, snapshot: Id, b: Batch, provider: string, model: string, dimensions: int, now: int)
    : Tables
    requires forall id | id in b.ids :: id in b.documents
  {
    var cleared := Cleared(t, snapshot);
    var documents := cleared.documents + b.documents;
    if b.ids == [] || provider == "" || model == "" then cleared.(documents := documents)
    else
      cleared.(documents := documents,
               jobs := InsertAbsent(cleared.jobs,
                                    NewRows(b.ids, b.documents, provider, model, dimensions, 0, 0, now)))
  }

  // ---------- what the queue's operations mean ----------

  /** The row an enqueued document gets. */
  predicate IsNewJob(j: Job, d: Document, dimensions: int, priority: int, maxAttempts: int, now: int) {
    && j.snapshot == d.snapshot && j.status.Pending? && j.attempts == 0
    && j.created == j.available == now && j.lockedAt.None? && j.lockedBy == ""
    && j.dimensions == (if dimensions > 0 then dimensions else 1024)
    && j.priority == (if priority > 0 then priority else 100)
    && j.maxAttempts == if maxAttempts > 0 then maxAttempts else 5
  }

  lemma InsertOne(jobs: Jobs, before: seq<Claim>, row: seq<Claim>, k: Key)
    requires |row| <= 1
    ensures var a, b := InsertAbsent(jobs, before), InsertAbsent(jobs, before + row);
            && (k in b <==> k in a || (row != [] && row[0].key == k))
            && (k in b ==> b[k] == if k in a then a[k] else row[0].job)
  {
    if row == [] {
      assert before + row == before;
    } else {
      assert (before + row)[..|before|] == before;
    }
  }

  /** Enqueueing keeps every row there is, and adds a new one for each document that has an id and a hash and whose key
      is not taken. */
  lemma {:induction false} EnqueueMeaning(
      jobs: Jobs, ids: seq<Id>, documents: map<Id, Document>, provider: string, model: string,
      dimensions: int, priority: int, maxAttempts: int, now: int, k: Key)
    requires forall id | id in ids :: id in documents
    ensures var after := InsertAbsent(
              jobs, NewRows(ids, documents, provider, model, dimensions, priority, maxAttempts, now));
            && (k in jobs ==> k in after && after[k] == jobs[k])
            && (k !in jobs ==>
                  (k in after <==> k.document in ids && k.document != 0 && k.hash != "" && k.provider == provider
                                   && k.model == model && k.hash == documents[k.document].contentHash))
            && (k !in jobs && k in after ==>
                  k.document in documents
                  && IsNewJob(after[k], documents[k.document], dimensions, priority, maxAttempts, now))
  {
    if ids != [] {
      var n := |ids| - 1;
      EnqueueMeaning(jobs, ids[..n], documents, provider, model, dimensions, priority, maxAttempts, now, k);
      var before := NewRows(ids[..n], documents, provider, model, dimensions, priority, maxAttempts, now);
      var row := RowsFor(ids[n], documents[ids[n]], provider, model, dimensions, priority, maxAttempts, now);
      assert ids == ids[..n] + [ids[n]];
      InsertOne(jobs, before, row, k);
    }
  }

  /** Retrying makes exactly the failed jobs of the snapshot, of the given provider and model if any is given, as new. */
  lemma RetryMeaning(jobs: Jobs, snapshot: Id, provider: string, model: string, now: int)
    ensures RetryFailed(jobs, snapshot, provider, model, now).Keys == jobs.Keys
    ensures forall k | k in jobs ::
              var j := jobs[k];
              RetryFailed(jobs, snapshot, provider, model, now)[k]
              == if j.status == Failed && j.snapshot == snapshot != 0
                    && provider in {"", k.provider} && model in {"", k.model}
                 then j.(status := Pending, attempts := 0, available := now, lockedAt := None, lockedBy := "")
                 else j
  {
  }

  /** Replacing a snapshot's documents: the new ones are there and its old ones are gone, with their jobs and
      embeddings; everything of other snapshots is as before. */
  lemma ReplaceMeaning(t: Tables, snapshot: Id, b: Batch, provider: string, model: string, dimensions: int, now: int)
    requires FreshBatch(t, snapshot, b)
    ensures var after := Replaced(t, snapshot, b, provider, model, dimensions, now);
            && (forall d :: d in after.documents <==>
                  d in b.documents || (d in t.documents && t.documents[d].snapshot != snapshot))
            && (forall d | d in after.documents ::
                  after.documents[d] == if d in b.documents then b.documents[d] else t.documents[d])
            && (forall k :: k in after.embeddings <==>
                  k in t.embeddings && k.document in t.documents && t.documents[k.document].snapshot != snapshot)
            && (forall k | k in after.embeddings :: after.embeddings[k] == t.embeddings[k])
  {
  }

  lemma ReplacedJobs(t: Tables, snapshot: Id, b: Batch, provider: string, model: string, dimensions: int, now: int,
                     k: Key)
    requires FreshBatch(t, snapshot, b)
    requires k in t.jobs ==> k.document in t.documents
    ensures var after := Replaced(t, snapshot, b, provider, model, dimensions, now).jobs;
            && (k in t.jobs ==> (k in after <==> t.documents[k.document].snapshot != snapshot))
            && (k in t.jobs && k in after ==> after[k] == t.jobs[k])
            && (k !in t.jobs ==>
                  (k in after <==> provider != "" && model != "" && k.document in b.documents && k.provider == provider
                                   && k.model == model && k.hash == b.documents[k.document].contentHash))
            && (k !in t.jobs && k in after ==> IsNewJob(after[k], b.documents[k.document], dimensions, 0, 0, now))
  {
    EnqueueMeaning(Cleared(t, snapshot).jobs, b.ids, b.documents, provider, model, dimensions, 0, 0, now, k);
  }
}

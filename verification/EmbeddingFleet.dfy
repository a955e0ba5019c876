/** Any number of workers on one embedding queue, statement by statement: a claim first selects and locks its rows,
    skipping rows locked by others, and marks them when it commits; the batch is then settled job by job. */
module EmbeddingFleet {
  import opened Common
  import opened VectorCodec
  import opened EmbeddingModel

  type WorkerId = nat

  datatype Phase =
    | Choosing(keys: seq<Key>, name: string, now: int)
    | Working(left: seq<Claim>)

  /** A worker not in `workers` is idle. `used`, `owner`, `lastClaim` and `produced` only record what happened: the
      document ids ever given out, who claimed a job last and when, and the vector last stored for a key. */
  datatype State = State(
    t: Tables, locks: map<Key, WorkerId>, workers: map<WorkerId, Phase>,
    used: set<Id>, owner: map<Key, WorkerId>, lastClaim: map<Key, int>, produced: map<Key, seq<Float32>>)

  datatype Step =
    | Select(w: WorkerId, name: string, now: int, limit: int, keys: seq<Key>)
    | Commit(w: WorkerId)
    | Succeed(w: WorkerId, vector: seq<Float32>)
    | Fail(w: WorkerId, now: int)
    /** The attempt failed and so did recording it. */
    | Lose(w: WorkerId)
    /** The worker crashes or is cancelled, or its claim is rolled back. */
    | Vanish(w: WorkerId)
    | Retry(snapshot: Id, provider: string, model: string, now: int)
    | Index(snapshot: Id, b: Batch, provider: string, model: string, dimensions: int, now: int)

  predicate IsWorking(s: State, w: WorkerId) {
    w in s.workers && s.workers[w].Working? && s.workers[w].left != []
  }

  predicate IsChoosing(s: State, w: WorkerId) {
    w in s.workers && s.workers[w].Choosing?
  }

  /** The snapshot's documents can be deleted: no claim in progress has locked one of their jobs. */
  predicate Unlocked(s: State, snapshot: Id) {
    forall k | k in s.locks && k.document in s.t.documents :: s.t.documents[k.document].snapshot != snapshot
  }

  predicate Enabled(s: State, step: Step) {
    match step
    case Select(w, _, now, limit, keys) =>
      w !in s.workers && IsBatch(s.t.jobs, s.locks.Keys, now, BatchLimit(limit), keys)
    case Commit(w) => IsChoosing(s, w) && forall k | k in s.workers[w].keys :: k in s.t.jobs
    case Succeed(w, vector) =>
      IsWorking(s, w)
      && (var claim := s.workers[w].left[0];
          && claim.key.document in s.t.documents
          && s.t.documents[claim.key.document].contentHash == claim.key.hash
          && Storable(claim, vector))
    case Fail(w, now) =>
      IsWorking(s, w)
      && (var at := s.workers[w].left[0].job.lockedAt; at.Some? ==> at.value <= now)
    case Lose(w) => IsWorking(s, w)
    case Vanish(w) => w in s.workers
    case Retry(_, _, _, _) => true
    case Index(snapshot, b, _, _, _, _) =>
      FreshBatch(s.t, snapshot, b) && Unlocked(s, snapshot) && forall id | id in b.ids :: id !in s.used
  }

  function Popped(workers: map<WorkerId, Phase>, w: WorkerId): map<WorkerId, Phase>
    requires w in workers && workers[w].Working? && workers[w].left != []
  {
    if |workers[w].left| == 1 then workers - {w} else workers[w := Working(workers[w].left[1..])]
  }

  function Marked<V>(m: map<Key, V>, keys: seq<Key>, v: V): map<Key, V> {
    m + map k | k in keys :: v
  }

  function Released(locks: map<Key, WorkerId>, w: WorkerId): map<Key, WorkerId> {
    map k | k in locks && locks[k] != w :: locks[k]
  }

  function Next(c: Codec<Float32>, s: State, step: Step): State
    requires Enabled(s, step)
  {
    match step
    case Select(w, name, now, _, keys) =>
      if keys == [] then s
      else s.(locks := Marked(s.locks, keys, w), workers := s.workers[w := Choosing(keys, name, now)])
    case Commit(w) =>
      var p := s.workers[w];
      var jobs := ClaimAll(s.t.jobs, p.keys, p.name, p.now);
      s.(t := s.t.(jobs := jobs), locks := Released(s.locks, w),
         workers := s.workers[w := Working(Claims(jobs, p.keys))],
         owner := Marked(s.owner, p.keys, w), lastClaim := Marked(s.lastClaim, p.keys, p.now))
    case Succeed(w, vector) =>
      var claim := s.workers[w].left[0];
      s.(t := Completed(c, s.t, claim, vector), workers := Popped(s.workers, w),
         produced := s.produced[claim.key := vector])
    case Fail(w, now) =>
      var claim := s.workers[w].left[0];
      s.(t := Failure(s.t, claim, now, Backoff(claim.job.attempts)), workers := Popped(s.workers, w))
    case Lose(w) => s.(workers := Popped(s.workers, w))
    case Vanish(w) => s.(workers := s.workers - {w}, locks := Released(s.locks, w))
    case Retry(snapshot, provider, model, now) =>
      s.(t := s.t.(jobs := RetryFailed(s.t.jobs, snapshot, provider, model, now)))
    case Index(snapshot, b, provider, model, dimensions, now) =>
      s.(t := Replaced(s.t, snapshot, b, provider, model, dimensions, now), used := s.used + b.documents.Keys)
  }

  // ---------- what every reachable state satisfies ----------

  /** How the attempts of a job stand in each status. */
  predicate JobOk(j: Job) {
    && j.maxAttempts > 0 && j.dimensions > 0
    && match j.status
       case Pending => j.attempts == 0
       case Processing => 1 <= j.attempts <= j.maxAttempts && j.lockedAt.Some?
       case Retrying => 1 <= j.attempts < j.maxAttempts
       case Failed => j.attempts == j.maxAttempts
       case Ready => 1 <= j.attempts <= j.maxAttempts && j.dimensions == STORED_DIMENSIONS
  }

  predicate JobsOk(jobs: Jobs) {
    forall k | k in jobs :: JobOk(jobs[k])
  }

  /** What a worker still has in hand is what the table holds, unless the row is gone. */
  predicate HoldsOne(s: State, w: WorkerId, claim: Claim) {
    && claim.job.status.Processing? && JobOk(claim.job)
    && claim.key.document in s.used
    && claim.key in s.owner && s.owner[claim.key] == w
    && (claim.key in s.t.jobs ==> s.t.jobs[claim.key] == claim.job)
    && (claim.key.document in s.t.documents ==> claim.key in s.t.jobs)
  }

  predicate Holds(s: State, w: WorkerId, left: seq<Claim>) {
    && left != []
    && NoRepeats(KeysOf(left))
    && forall claim | claim in left :: HoldsOne(s, w, claim)
  }

  predicate HeldOk(s: State) {
    forall w | w in s.workers && s.workers[w].Working? :: Holds(s, w, s.workers[w].left)
  }

  predicate Chooses(s: State, w: WorkerId, p: Phase)
    requires p.Choosing?
  {
    && p.keys != [] && NoRepeats(p.keys)
    && forall k | k in p.keys :: k in s.locks && s.locks[k] == w
  }

  predicate ChoosersOk(s: State) {
    forall w | w in s.workers && s.workers[w].Choosing? :: Chooses(s, w, s.workers[w])
  }

  predicate LocksOk(s: State) {
    forall k | k in s.locks ::
      && k in s.t.jobs && IsChoosing(s, s.locks[k])
      && k in s.workers[s.locks[k]].keys && Candidate(s.t.jobs[k], s.workers[s.locks[k]].now)
  }

  predicate Refers(t: Tables, used: set<Id>) {
    && t.documents.Keys <= used
    && (forall k | k in t.jobs ::
          k.document in t.documents
          && t.documents[k.document] == Document(t.jobs[k].snapshot, k.hash))
  }

  /** A job is ready exactly when its embedding is stored, as the text of the vector last produced for it. */
  predicate IndexAgrees(c: Codec<Float32>, t: Tables, produced: map<Key, seq<Float32>>) {
    && (forall k | k in t.embeddings :: k in t.jobs && t.jobs[k].status.Ready?)
    && (forall k | k in t.jobs && t.jobs[k].status.Ready? ::
          && k in t.embeddings && k in produced
          && |produced[k]| == t.jobs[k].dimensions
          && t.embeddings[k] == Embedding(t.jobs[k].snapshot, t.jobs[k].dimensions, Format(c, produced[k])))
  }

  /** A job to be retried becomes available only its whole wait after it was last claimed. */
  predicate WaitsOut(j: Job, k: Key, lastClaim: map<Key, int>) {
    && (j.status.Processing? ==> k in lastClaim && j.lockedAt == Some(lastClaim[k]))
    && (j.status.Retrying? ==> k in lastClaim && lastClaim[k] + Backoff(j.attempts) <= j.available)
  }

  predicate TimesOk(s: State) {
    forall k | k in s.t.jobs :: WaitsOut(s.t.jobs[k], k, s.lastClaim)
  }

  predicate Inv(c: Codec<Float32>, s: State) {
    && JobsOk(s.t.jobs) && HeldOk(s) && ChoosersOk(s) && LocksOk(s)
    && Refers(s.t, s.used) && IndexAgrees(c, s.t, s.produced) && TimesOk(s)
  }

  // ---------- each step keeps it ----------

  lemma SelectKeeps(c: Codec<Float32>, s: State, step: Step)
    requires step.Select? && Enabled(s, step) && Inv(c, s)
    ensures Inv(c, Next(c, s, step))
  {
    var s' := Next(c, s, step);
    SelectKeepsLocks(c, s, step);
    forall w | w in s'.workers && s'.workers[w].Working?
      ensures Holds(s', w, s'.workers[w].left)
    {
      assert s'.workers[w] == s.workers[w];
      forall claim | claim in s.workers[w].left
        ensures HoldsOne(s', w, claim)
      {
        assert HoldsOne(s, w, claim);
      }
    }
  }

  lemma SelectKeepsLocks(c: Codec<Float32>, s: State, step: Step)
    requires step.Select? && Enabled(s, step) && ChoosersOk(s) && LocksOk(s)
    ensures ChoosersOk(Next(c, s, step)) && LocksOk(Next(c, s, step))
  {
    var s' := Next(c, s, step);
    forall w | w in s'.workers && s'.workers[w].Choosing?
      ensures Chooses(s', w, s'.workers[w])
    {
      if w != step.w {
        assert Chooses(s, w, s.workers[w]);
      }
    }
    forall k | k in s'.locks
      ensures k in s'.t.jobs && IsChoosing(s', s'.locks[k])
      ensures k in s'.workers[s'.locks[k]].keys && Candidate(s'.t.jobs[k], s'.workers[s'.locks[k]].now)
    {
      if k !in step.keys {
        assert s'.locks[k] == s.locks[k] != step.w;
      }
    }
  }

  /** The rows a claim is about to mark are still as it selected them. */
  lemma ChosenAreCandidates(s: State, w: WorkerId)
    requires ChoosersOk(s) && LocksOk(s) && IsChoosing(s, w)
    ensures var p := s.workers[w];
            p.keys != [] && NoRepeats(p.keys)
            && forall k | k in p.keys ::
                 k in s.t.jobs && Candidate(s.t.jobs[k], p.now) && k in s.locks && s.locks[k] == w
  {
  }

  predicate AllWaiting(jobs: Jobs, keys: seq<Key>) {
    forall k | k in keys :: k in jobs && (jobs[k].status.Pending? || jobs[k].status.Retrying?)
  }

  lemma ClaimKeepsTables(c: Codec<Float32>, t: Tables, keys: seq<Key>, name: string, now: int,
                         used: set<Id>, produced: map<Key, seq<Float32>>, lastClaim: map<Key, int>)
    requires AllWaiting(t.jobs, keys)
    requires JobsOk(t.jobs) && Refers(t, used) && IndexAgrees(c, t, produced)
    requires forall k | k in t.jobs :: WaitsOut(t.jobs[k], k, lastClaim)
    ensures var t' := t.(jobs := ClaimAll(t.jobs, keys, name, now));
            && JobsOk(t'.jobs) && Refers(t', used) && IndexAgrees(c, t', produced)
            && forall k | k in t'.jobs :: WaitsOut(t'.jobs[k], k, Marked(lastClaim, keys, now))
  {
  }

  lemma CommitKeepsOne(c: Codec<Float32>, s: State, w: WorkerId, v: WorkerId, claim: Claim)
    requires Enabled(s, Commit(w)) && AllWaiting(s.t.jobs, s.workers[w].keys) && HoldsOne(s, v, claim)
    ensures HoldsOne(Next(c, s, Commit(w)), v, claim)
  {
  }

  lemma CommitHoldsOne(c: Codec<Float32>, s: State, w: WorkerId, k: Key)
    requires Enabled(s, Commit(w)) && JobsOk(s.t.jobs) && Refers(s.t, s.used)
    requires k in s.workers[w].keys && AllWaiting(s.t.jobs, s.workers[w].keys)
    ensures var s' := Next(c, s, Commit(w)); HoldsOne(s', w, Claim(k, s'.t.jobs[k]))
  {
    assert JobOk(s.t.jobs[k]);
  }

  lemma CommitHolds(c: Codec<Float32>, s: State, w: WorkerId)
    requires Enabled(s, Commit(w)) && JobsOk(s.t.jobs) && Refers(s.t, s.used)
    requires var p := s.workers[w]; p.keys != [] && NoRepeats(p.keys) && AllWaiting(s.t.jobs, p.keys)
    ensures var s' := Next(c, s, Commit(w)); Holds(s', w, s'.workers[w].left)
  {
    var s' := Next(c, s, Commit(w));
    var keys := s.workers[w].keys;
    var left := s'.workers[w].left;
    assert KeysOf(left) == keys;
    forall claim | claim in left
      ensures HoldsOne(s', w, claim)
    {
      var i :| 0 <= i < |left| && left[i] == claim;
      CommitHoldsOne(c, s, w, keys[i]);
    }
  }

  lemma CommitKeepsLocks(c: Codec<Float32>, s: State, w: WorkerId)
    requires Enabled(s, Commit(w)) && ChoosersOk(s) && LocksOk(s)
    ensures ChoosersOk(Next(c, s, Commit(w))) && LocksOk(Next(c, s, Commit(w)))
  {
    var s' := Next(c, s, Commit(w));
    forall v | v in s'.workers && s'.workers[v].Choosing?
      ensures Chooses(s', v, s'.workers[v])
    {
      assert Chooses(s, v, s.workers[v]);
    }
    ChosenAreCandidates(s, w);
    forall k | k in s'.locks
      ensures k in s'.t.jobs && IsChoosing(s', s'.locks[k])
      ensures k in s'.workers[s'.locks[k]].keys && Candidate(s'.t.jobs[k], s'.workers[s'.locks[k]].now)
    {
      assert k !in s.workers[w].keys;
    }
  }

  lemma CommitKeepsHeld(c: Codec<Float32>, s: State, w: WorkerId)
    requires Enabled(s, Commit(w)) && JobsOk(s.t.jobs) && Refers(s.t, s.used) && HeldOk(s)
    requires var p := s.workers[w]; p.keys != [] && NoRepeats(p.keys) && AllWaiting(s.t.jobs, p.keys)
    ensures HeldOk(Next(c, s, Commit(w)))
  {
    var s' := Next(c, s, Commit(w));
    forall v | v in s'.workers && s'.workers[v].Working?
      ensures Holds(s', v, s'.workers[v].left)
    {
      if v == w {
        CommitHolds(c, s, w);
      } else {
        assert Holds(s, v, s.workers[v].left);
        forall claim | claim in s.workers[v].left
          ensures HoldsOne(s', v, claim)
        {
          CommitKeepsOne(c, s, w, v, claim);
        }
      }
    }
  }

  lemma CommitKeeps(c: Codec<Float32>, s: State, step: Step)
    requires step.Commit? && Enabled(s, step) && Inv(c, s)
    ensures Inv(c, Next(c, s, step))
  {
    var p := s.workers[step.w];
    ChosenAreCandidates(s, step.w);
    assert AllWaiting(s.t.jobs, p.keys);
    CommitKeepsHeld(c, s, step.w);
    CommitKeepsLocks(c, s, step.w);
    ClaimKeepsTables(c, s.t, p.keys, p.name, p.now, s.used, s.produced, s.lastClaim);
  }

  // ---------- settling a job ----------

  lemma RestHasNoRepeats(left: seq<Claim>)
    requires left != [] && NoRepeats(KeysOf(left))
    ensures NoRepeats(KeysOf(left[1..])) && left[0].key !in KeysOf(left[1..])
    ensures forall claim | claim in left[1..] :: claim.key != left[0].key
  {
  }

  /** One job of worker `w` is settled: its row becomes what `jobs` says, every other row stays. */
  predicate SettlesOnly(s: State, s': State, w: WorkerId) {
    && IsWorking(s, w)
    && s'.workers == Popped(s.workers, w) && s'.locks == s.locks
    && s'.used == s.used && s'.owner == s.owner && s'.lastClaim == s.lastClaim
    && s'.t.documents == s.t.documents && s'.t.jobs.Keys == s.t.jobs.Keys
    && forall k | k in s.t.jobs && k != s.workers[w].left[0].key :: s'.t.jobs[k] == s.t.jobs[k]
  }

  lemma SettleKeepsHeld(s: State, s': State, w: WorkerId)
    requires SettlesOnly(s, s', w) && HeldOk(s)
    ensures HeldOk(s')
  {
    var first := s.workers[w].left[0];
    assert Holds(s, w, s.workers[w].left);
    RestHasNoRepeats(s.workers[w].left);
    forall v | v in s'.workers && s'.workers[v].Working?
      ensures Holds(s', v, s'.workers[v].left)
    {
      assert Holds(s, v, s.workers[v].left);
      var left := s'.workers[v].left;
      forall claim | claim in left
        ensures HoldsOne(s', v, claim)
      {
        assert claim in s.workers[v].left && HoldsOne(s, v, claim) && HoldsOne(s, w, first);
        assert claim.key != first.key;
      }
    }
  }

  lemma SettleKeepsLocks(s: State, s': State, w: WorkerId)
    requires SettlesOnly(s, s', w) && HeldOk(s) && ChoosersOk(s) && LocksOk(s)
    ensures ChoosersOk(s') && LocksOk(s')
  {
    var first := s.workers[w].left[0];
    assert HoldsOne(s, w, first) by {
      assert Holds(s, w, s.workers[w].left);
    }
    forall v | v in s'.workers && s'.workers[v].Choosing?
      ensures Chooses(s', v, s'.workers[v])
    {
      assert Chooses(s, v, s.workers[v]);
    }
    forall k | k in s'.locks
      ensures k in s'.t.jobs && IsChoosing(s', s'.locks[k])
      ensures k in s'.workers[s'.locks[k]].keys && Candidate(s'.t.jobs[k], s'.workers[s'.locks[k]].now)
    {
      assert k != first.key;
    }
  }

  lemma HeadHeld(s: State, w: WorkerId)
    requires HeldOk(s) && IsWorking(s, w)
    ensures HoldsOne(s, w, s.workers[w].left[0])
  {
  }

  lemma SucceedKeeps(c: Codec<Float32>, s: State, step: Step)
    requires step.Succeed? && Enabled(s, step) && Inv(c, s)
    ensures Inv(c, Next(c, s, step))
  {
    var s' := Next(c, s, step);
    HeadHeld(s, step.w);
    SettleKeepsHeld(s, s', step.w);
    SettleKeepsLocks(s, s', step.w);
    var claim := s.workers[step.w].left[0];
    assert JobOk(s.t.jobs[claim.key]);
    CompleteKeepsTables(c, s.t, claim, step.vector, s.used, s.produced, s.lastClaim);
  }

  lemma CompleteKeepsTables(c: Codec<Float32>, t: Tables, claim: Claim, vector: seq<Float32>,
                            used: set<Id>, produced: map<Key, seq<Float32>>, lastClaim: map<Key, int>)
    requires claim.key in t.jobs && t.jobs[claim.key] == claim.job && claim.job.status.Processing?
    requires Storable(claim, vector)
    requires JobsOk(t.jobs) && Refers(t, used) && IndexAgrees(c, t, produced)
    requires forall k | k in t.jobs :: WaitsOut(t.jobs[k], k, lastClaim)
    ensures var t' := Completed(c, t, claim, vector);
            && JobsOk(t'.jobs) && Refers(t', used) && IndexAgrees(c, t', produced[claim.key := vector])
            && forall k | k in t'.jobs :: WaitsOut(t'.jobs[k], k, lastClaim)
  {
    assert claim.key !in t.embeddings;
  }

  lemma FailKeepsTables(c: Codec<Float32>, t: Tables, claim: Claim, now: int,
                        used: set<Id>, produced: map<Key, seq<Float32>>, lastClaim: map<Key, int>)
    requires claim.key in t.jobs ==> t.jobs[claim.key] == claim.job
    requires claim.job.status.Processing? && claim.job.lockedAt.Some? && claim.job.lockedAt.value <= now
    requires JobsOk(t.jobs) && Refers(t, used) && IndexAgrees(c, t, produced)
    requires forall k | k in t.jobs :: WaitsOut(t.jobs[k], k, lastClaim)
    ensures var t' := Failure(t, claim, now, Backoff(claim.job.attempts));
            && JobsOk(t'.jobs) && Refers(t', used) && IndexAgrees(c, t', produced)
            && forall k | k in t'.jobs :: WaitsOut(t'.jobs[k], k, lastClaim)
  {
    if claim.key in t.jobs {
      assert JobOk(t.jobs[claim.key]) && WaitsOut(t.jobs[claim.key], claim.key, lastClaim);
    }
  }

  lemma FailKeeps(c: Codec<Float32>, s: State, step: Step)
    requires step.Fail? && Enabled(s, step) && Inv(c, s)
    ensures Inv(c, Next(c, s, step))
  {
    var s' := Next(c, s, step);
    HeadHeld(s, step.w);
    SettleKeepsHeld(s, s', step.w);
    SettleKeepsLocks(s, s', step.w);
    FailKeepsTables(c, s.t, s.workers[step.w].left[0], step.now, s.used, s.produced, s.lastClaim);
  }

  lemma LoseKeeps(c: Codec<Float32>, s: State, step: Step)
    requires step.Lose? && Enabled(s, step) && Inv(c, s)
    ensures Inv(c, Next(c, s, step))
  {
    SettleKeepsHeld(s, Next(c, s, step), step.w);
    SettleKeepsLocks(s, Next(c, s, step), step.w);
  }

  lemma VanishKeeps(c: Codec<Float32>, s: State, step: Step)
    requires step.Vanish? && Enabled(s, step) && Inv(c, s)
    ensures Inv(c, Next(c, s, step))
  {
    var s' := Next(c, s, step);
    forall v | v in s'.workers && s'.workers[v].Working?
      ensures Holds(s', v, s'.workers[v].left)
    {
      assert Holds(s, v, s.workers[v].left);
      forall claim | claim in s.workers[v].left
        ensures HoldsOne(s', v, claim)
      {
        assert HoldsOne(s, v, claim);
      }
    }
  }

  // ---------- retrying and reindexing ----------

  lemma RetryKeepsTables(c: Codec<Float32>, t: Tables, snapshot: Id, provider: string, model: string, now: int,
                         used: set<Id>, produced: map<Key, seq<Float32>>, lastClaim: map<Key, int>)
    requires JobsOk(t.jobs) && Refers(t, used) && IndexAgrees(c, t, produced)
    requires forall k | k in t.jobs :: WaitsOut(t.jobs[k], k, lastClaim)
    ensures var t' := t.(jobs := RetryFailed(t.jobs, snapshot, provider, model, now));
            && JobsOk(t'.jobs) && Refers(t', used) && IndexAgrees(c, t', produced)
            && forall k | k in t'.jobs :: WaitsOut(t'.jobs[k], k, lastClaim)
  {
  }

  lemma RetryKeeps(c: Codec<Float32>, s: State, step: Step)
    requires step.Retry? && Enabled(s, step) && Inv(c, s)
    ensures Inv(c, Next(c, s, step))
  {
    var s' := Next(c, s, step);
    RetryKeepsTables(c, s.t, step.snapshot, step.provider, step.model, step.now, s.used, s.produced, s.lastClaim);
    forall v | v in s'.workers && s'.workers[v].Working?
      ensures Holds(s', v, s'.workers[v].left)
    {
      assert Holds(s, v, s.workers[v].left);
      forall claim | claim in s.workers[v].left
        ensures HoldsOne(s', v, claim)
      {
        assert HoldsOne(s, v, claim);
      }
    }
    RetryKeepsLocks(c, s, step);
  }

  lemma RetryKeepsLocks(c: Codec<Float32>, s: State, step: Step)
    requires step.Retry? && ChoosersOk(s) && LocksOk(s)
    ensures ChoosersOk(Next(c, s, step)) && LocksOk(Next(c, s, step))
  {
  }

  /** What reindexing a snapshot leaves of the old rows. */
  lemma ClearKeepsTables(c: Codec<Float32>, t: Tables, snapshot: Id,
                         used: set<Id>, produced: map<Key, seq<Float32>>, lastClaim: map<Key, int>)
    requires JobsOk(t.jobs) && Refers(t, used) && IndexAgrees(c, t, produced)
    requires forall k | k in t.jobs :: WaitsOut(t.jobs[k], k, lastClaim)
    ensures var t' := Cleared(t, snapshot);
            && JobsOk(t'.jobs) && Refers(t', used) && IndexAgrees(c, t', produced)
            && forall k | k in t'.jobs :: WaitsOut(t'.jobs[k], k, lastClaim)
  {
  }

  predicate FreshRow(b: Batch, row: Claim) {
    && row.key.document in b.documents
    && b.documents[row.key.document] == Document(row.job.snapshot, row.key.hash)
    && row.job.status.Pending? && JobOk(row.job)
  }

  lemma {:induction false} NewRowsAreFresh(ids: seq<Id>, b: Batch, provider: string, model: string,
                                           dimensions: int, now: int)
    requires forall id | id in ids :: id in b.documents
    ensures forall row | row in NewRows(ids, b.documents, provider, model, dimensions, 0, 0, now) :: FreshRow(b, row)
  {
    if ids != [] {
      NewRowsAreFresh(ids[..|ids| - 1], b, provider, model, dimensions, now);
    }
  }

  /** Inserting keeps every row that was there and adds only new ones. */
  lemma {:induction false} InsertedAreRows(jobs: Jobs, rows: seq<Claim>)
    ensures var all := InsertAbsent(jobs, rows);
            && (forall k | k in jobs :: k in all && all[k] == jobs[k])
            && (forall k | k in all && k !in jobs :: Claim(k, all[k]) in rows)
            && (forall row | row in rows :: row.key in all)
  {
    if rows != [] {
      InsertedAreRows(jobs, rows[..|rows| - 1]);
    }
  }

  lemma InsertKeepsTables(c: Codec<Float32>, t: Tables, b: Batch, rows: seq<Claim>,
                          used: set<Id>, produced: map<Key, seq<Float32>>, lastClaim: map<Key, int>)
    requires JobsOk(t.jobs) && Refers(t, used) && IndexAgrees(c, t, produced)
    requires forall k | k in t.jobs :: WaitsOut(t.jobs[k], k, lastClaim)
    requires forall row | row in rows :: FreshRow(b, row)
    requires forall id | id in b.documents :: id !in used
    ensures var t' := t.(documents := t.documents + b.documents, jobs := InsertAbsent(t.jobs, rows));
            && JobsOk(t'.jobs) && Refers(t', used + b.documents.Keys) && IndexAgrees(c, t', produced)
            && forall k | k in t'.jobs :: WaitsOut(t'.jobs[k], k, lastClaim)
  {
    InsertedAreRows(t.jobs, rows);
    var jobs := InsertAbsent(t.jobs, rows);
    forall k | k in jobs && k !in t.jobs
      ensures FreshRow(b, Claim(k, jobs[k]))
    {
      assert Claim(k, jobs[k]) in rows;
    }
  }

  /** The rows an indexing adds. */
  function IndexRows(step: Step): seq<Claim>
    requires step.Index? && forall id | id in step.b.ids :: id in step.b.documents
  {
    if step.provider == "" || step.model == "" then []
    else NewRows(step.b.ids, step.b.documents, step.provider, step.model, step.dimensions, 0, 0, step.now)
  }

  lemma IndexIsInsert(c: Codec<Float32>, s: State, step: Step)
    requires step.Index? && Enabled(s, step)
    ensures var t := Cleared(s.t, step.snapshot);
            Next(c, s, step).t
            == t.(documents := t.documents + step.b.documents, jobs := InsertAbsent(t.jobs, IndexRows(step)))
    ensures forall row | row in IndexRows(step) :: FreshRow(step.b, row)
  {
    NewRowsAreFresh(step.b.ids, step.b, step.provider, step.model, step.dimensions, step.now);
  }

  lemma IndexKeepsOne(c: Codec<Float32>, s: State, step: Step, w: WorkerId, claim: Claim)
    requires step.Index? && Enabled(s, step) && Refers(s.t, s.used) && HoldsOne(s, w, claim)
    ensures HoldsOne(Next(c, s, step), w, claim)
  {
    IndexIsInsert(c, s, step);
    var t := Cleared(s.t, step.snapshot);
    InsertedAreRows(t.jobs, IndexRows(step));
    var jobs := InsertAbsent(t.jobs, IndexRows(step));
    if claim.key in jobs && claim.key !in t.jobs {
      assert false;
    }
  }

  lemma IndexKeepsHeld(c: Codec<Float32>, s: State, step: Step)
    requires step.Index? && Enabled(s, step) && Refers(s.t, s.used) && HeldOk(s)
    ensures HeldOk(Next(c, s, step))
  {
    var s' := Next(c, s, step);
    forall v | v in s'.workers && s'.workers[v].Working?
      ensures Holds(s', v, s'.workers[v].left)
    {
      assert Holds(s, v, s.workers[v].left);
      forall claim | claim in s.workers[v].left
        ensures HoldsOne(s', v, claim)
      {
        IndexKeepsOne(c, s, step, v, claim);
      }
    }
  }

  lemma IndexKeepsLocks(c: Codec<Float32>, s: State, step: Step)
    requires step.Index? && Enabled(s, step) && Refers(s.t, s.used) && ChoosersOk(s) && LocksOk(s)
    ensures ChoosersOk(Next(c, s, step)) && LocksOk(Next(c, s, step))
  {
    var s' := Next(c, s, step);
    IndexIsInsert(c, s, step);
    InsertedAreRows(Cleared(s.t, step.snapshot).jobs, IndexRows(step));
    forall v | v in s'.workers && s'.workers[v].Choosing?
      ensures Chooses(s', v, s'.workers[v])
    {
      assert Chooses(s, v, s.workers[v]);
    }
    forall k | k in s'.locks
      ensures k in s'.t.jobs && s'.t.jobs[k] == s.t.jobs[k]
    {
      assert k in Cleared(s.t, step.snapshot).jobs;
    }
  }

  lemma IndexKeeps(c: Codec<Float32>, s: State, step: Step)
    requires step.Index? && Enabled(s, step) && Inv(c, s)
    ensures Inv(c, Next(c, s, step))
  {
    IndexIsInsert(c, s, step);
    IndexKeepsHeld(c, s, step);
    IndexKeepsLocks(c, s, step);
    ClearKeepsTables(c, s.t, step.snapshot, s.used, s.produced, s.lastClaim);
    InsertKeepsTables(c, Cleared(s.t, step.snapshot), step.b, IndexRows(step), s.used, s.produced, s.lastClaim);
  }

  lemma StepKeepsInv(c: Codec<Float32>, s: State, step: Step)
    requires Enabled(s, step) && Inv(c, s)
    ensures Inv(c, Next(c, s, step))
  {
    match step
    case Select(_, _, _, _, _) => SelectKeeps(c, s, step);
    case Commit(_) => CommitKeeps(c, s, step);
    case Succeed(_, _) => SucceedKeeps(c, s, step);
    case Fail(_, _) => FailKeeps(c, s, step);
    case Lose(_) => LoseKeeps(c, s, step);
    case Vanish(_) => VanishKeeps(c, s, step);
    case Retry(_, _, _, _) => RetryKeeps(c, s, step);
    case Index(_, _, _, _, _, _) => IndexKeeps(c, s, step);
  }
}

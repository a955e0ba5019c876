/** Runs of the embedding fleet: what stays true, how much work they can do, and where they end. */
module EmbeddingProgress {
  import opened Common
  import opened Sums
  import opened VectorCodec
  import opened EmbeddingModel
  import opened EmbeddingFleet
  import EmbeddingRepo

  ghost predicate Schedule(c: Codec<Float32>, s: State, steps: seq<Step>)
    decreases |steps|
  {
    steps != [] ==> Enabled(s, steps[0]) && Schedule(c, Next(c, s, steps[0]), steps[1..])
  }

  ghost function After(c: Codec<Float32>, s: State, steps: seq<Step>): State
    requires Schedule(c, s, steps)
    decreases |steps|
  {
    if steps == [] then s else After(c, Next(c, s, steps[0]), steps[1..])
  }

  const EMPTY := State(Tables(map[], map[], map[]), map[], map[], {}, map[], map[], map[])

  lemma {:induction false} RunsKeepInv(c: Codec<Float32>, s: State, steps: seq<Step>)
    requires Inv(c, s) && Schedule(c, s, steps)
    ensures Inv(c, After(c, s, steps))
    decreases |steps|
  {
    if steps != [] {
      StepKeepsInv(c, s, steps[0]);
      RunsKeepInv(c, Next(c, s, steps[0]), steps[1..]);
    }
  }

  lemma EveryRunKeepsInv(c: Codec<Float32>, steps: seq<Step>)
    requires Schedule(c, EMPTY, steps)
    ensures Inv(c, After(c, EMPTY, steps))
  {
    RunsKeepInv(c, EMPTY, steps);
  }

  /** A job being processed is in one batch, once. */
  lemma ClaimExclusion(c: Codec<Float32>, s: State, v: WorkerId, w: WorkerId, i: nat, j: nat)
    requires Inv(c, s) && IsWorking(s, v) && IsWorking(s, w)
    requires i < |s.workers[v].left| && j < |s.workers[w].left|
    requires s.workers[v].left[i].key == s.workers[w].left[j].key
    ensures v == w && i == j
  {
    var a, b := s.workers[v].left, s.workers[w].left;
    assert Holds(s, v, a) && Holds(s, w, b);
    assert HoldsOne(s, v, a[i]) && HoldsOne(s, w, b[j]);
    if i < j {
      KeysDiffer(KeysOf(a), i, j);
    } else if j < i {
      KeysDiffer(KeysOf(a), j, i);
    }
  }

  lemma KeysDiffer(keys: seq<Key>, i: nat, j: nat)
    requires NoRepeats(keys) && i < j < |keys|
    ensures keys[i] != keys[j]
  {
  }

  /** Two claims of a job with no retry in between are at least its whole wait, so a minute, apart, whatever
      clocks the workers have. */
  lemma ClaimsAreSpaced(c: Codec<Float32>, s: State, w: WorkerId, k: Key)
    requires Inv(c, s) && Enabled(s, Commit(w)) && k in s.workers[w].keys && s.t.jobs[k].attempts > 0
    ensures var s' := Next(c, s, Commit(w));
            && k in s.lastClaim
            && s'.lastClaim[k] >= s.lastClaim[k] + Backoff(s.t.jobs[k].attempts)
            && s'.lastClaim[k] >= s.lastClaim[k] + 60 * SECOND
  {
    ChosenAreCandidates(s, w);
    assert JobOk(s.t.jobs[k]) && WaitsOut(s.t.jobs[k], k, s.lastClaim);
    BackoffGrows(s.t.jobs[k].attempts, 0);
  }

  /** A job is ready exactly when its embedding is stored, and that text reads back as the vector produced. */
  lemma IndexAgreement(c: Codec<Float32>, s: State, k: Key)
    requires Inv(c, s) && Faithful(c) && k in s.t.jobs
    ensures s.t.jobs[k].status.Ready? <==> k in s.t.embeddings
    ensures s.t.jobs[k].status.Ready? ==> s.t.jobs[k].dimensions == STORED_DIMENSIONS
    ensures k in s.t.embeddings ==>
      && k in s.produced && s.t.embeddings[k].dimensions == s.t.jobs[k].dimensions == |s.produced[k]|
      && Parse(c, s.t.embeddings[k].text) == Some(s.produced[k])
  {
    if s.t.jobs[k].status.Ready? {
      RoundTrip(c, s.produced[k]);
    }
  }

  // ---------- bounded work ----------

  /** The claims a job can still get. */
  function Budget(j: Job): nat {
    if (j.status.Ready? || j.status.Failed?) || j.attempts > j.maxAttempts then 0 else j.maxAttempts - j.attempts
  }

  /** The claims and settlements a job can still get. */
  function Rank(j: Job): nat {
    if j.status.Processing? then 2 * Budget(j) + 1 else 2 * Budget(j)
  }

  lemma ClaimOneMore(jobs: Jobs, keys: seq<Key>, name: string, now: int)
    requires keys != [] && NoRepeats(keys) && AllWaiting(jobs, keys)
    ensures var n := |keys| - 1;
            var before := ClaimAll(jobs, keys[..n], name, now);
            && keys[n] in before && before[keys[n]] == jobs[keys[n]]
            && ClaimAll(jobs, keys, name, now) == before[keys[n] := Claimed(jobs[keys[n]], name, now)]
  {
  }

  /** Every claim takes one from the budget and one from the rank. */
  lemma {:induction false} ClaimLowers(jobs: Jobs, keys: seq<Key>, name: string, now: int)
    requires JobsOk(jobs) && NoRepeats(keys) && AllWaiting(jobs, keys)
    ensures Sum(ClaimAll(jobs, keys, name, now), Budget) + |keys| == Sum(jobs, Budget)
    ensures Sum(ClaimAll(jobs, keys, name, now), Rank) + |keys| == Sum(jobs, Rank)
  {
    if keys == [] {
      assert ClaimAll(jobs, keys, name, now) == jobs;
    } else {
      var n := |keys| - 1;
      var k := keys[n];
      forall i | 0 <= i < n
        ensures keys[..n][i] !in keys[..n][..i]
      {
        assert keys[..n][..i] == keys[..i];
      }
      ClaimLowers(jobs, keys[..n], name, now);
      ClaimOneMore(jobs, keys, name, now);
      assert JobOk(jobs[k]);
      SumUpdate(ClaimAll(jobs, keys[..n], name, now), Budget, k, Claimed(jobs[k], name, now));
      SumUpdate(ClaimAll(jobs, keys[..n], name, now), Rank, k, Claimed(jobs[k], name, now));
    }
  }

  /** Steps that neither add jobs nor give failed ones new attempts. */
  predicate AddsNoWork(step: Step) {
    !step.Retry? && !step.Index?
  }

  ghost function ClaimsOf(s: State, step: Step): nat
    requires Enabled(s, step)
  {
    if step.Commit? then |s.workers[step.w].keys| else 0
  }

  ghost function SettlesOf(s: State, step: Step): nat
    requires Enabled(s, step)
  {
    if (step.Succeed? || step.Fail?) && s.workers[step.w].left[0].key in s.t.jobs then 1 else 0
  }

  /** What a step does to the work that is left. */
  ghost predicate Lowers(c: Codec<Float32>, s: State, step: Step)
    requires Enabled(s, step)
  {
    var jobs := Next(c, s, step).t.jobs;
    && Sum(jobs, Budget) + ClaimsOf(s, step) <= Sum(s.t.jobs, Budget)
    && Sum(jobs, Rank) + ClaimsOf(s, step) + SettlesOf(s, step) <= Sum(s.t.jobs, Rank)
  }

  lemma StepLowers(c: Codec<Float32>, s: State, step: Step)
    requires Inv(c, s) && Enabled(s, step) && AddsNoWork(step)
    ensures Lowers(c, s, step)
  {
    match step
    case Commit(_) => CommitLowers(c, s, step);
    case Succeed(_, _) => SucceedLowers(c, s, step);
    case Fail(_, _) => FailLowers(c, s, step);
    case _ =>
  }

  lemma CommitLowers(c: Codec<Float32>, s: State, step: Step)
    requires step.Commit? && Enabled(s, step) && JobsOk(s.t.jobs) && ChoosersOk(s) && LocksOk(s)
    ensures Lowers(c, s, step)
  {
    ChosenAreCandidates(s, step.w);
    var p := s.workers[step.w];
    ClaimLowers(s.t.jobs, p.keys, p.name, p.now);
  }

  lemma SucceedLowers(c: Codec<Float32>, s: State, step: Step)
    requires step.Succeed? && Enabled(s, step) && HeldOk(s)
    ensures Lowers(c, s, step)
  {
    HeadHeld(s, step.w);
    var k := s.workers[step.w].left[0].key;
    SettleLowers(s.t.jobs, k, Next(c, s, step).t.jobs[k]);
  }

  lemma FailLowers(c: Codec<Float32>, s: State, step: Step)
    requires step.Fail? && Enabled(s, step) && HeldOk(s)
    ensures Lowers(c, s, step)
  {
    HeadHeld(s, step.w);
    var k := s.workers[step.w].left[0].key;
    if k in s.t.jobs {
      SettleLowers(s.t.jobs, k, Next(c, s, step).t.jobs[k]);
    }
  }

  lemma SettleLowers(jobs: Jobs, k: Key, j: Job)
    requires k in jobs && jobs[k].status.Processing? && JobOk(jobs[k])
    requires !j.status.Processing? && j.attempts == jobs[k].attempts && j.maxAttempts == jobs[k].maxAttempts
    ensures Sum(jobs[k := j], Budget) <= Sum(jobs, Budget)
    ensures Sum(jobs[k := j], Rank) + 1 <= Sum(jobs, Rank)
  {
    SumUpdate(jobs, Budget, k, j);
    SumUpdate(jobs, Rank, k, j);
  }

  ghost function RunClaims(c: Codec<Float32>, s: State, steps: seq<Step>): nat
    requires Schedule(c, s, steps)
    decreases |steps|
  {
    if steps == [] then 0 else ClaimsOf(s, steps[0]) + RunClaims(c, Next(c, s, steps[0]), steps[1..])
  }

  ghost function RunSettles(c: Codec<Float32>, s: State, steps: seq<Step>): nat
    requires Schedule(c, s, steps)
    decreases |steps|
  {
    if steps == [] then 0 else SettlesOf(s, steps[0]) + RunSettles(c, Next(c, s, steps[0]), steps[1..])
  }

  function MaxAttempts(j: Job): nat {
    if j.maxAttempts < 0 then 0 else j.maxAttempts
  }

  /** However many workers there are and however they interleave, crash and lose writes, the claims they make and
      the budget that remains never exceed the budget they started with. */
  lemma {:induction false} BoundedWork(c: Codec<Float32>, s: State, steps: seq<Step>)
    requires Inv(c, s) && Schedule(c, s, steps) && forall step | step in steps :: AddsNoWork(step)
    ensures RunClaims(c, s, steps) + Sum(After(c, s, steps).t.jobs, Budget) <= Sum(s.t.jobs, Budget)
    ensures RunClaims(c, s, steps) + RunSettles(c, s, steps) + Sum(After(c, s, steps).t.jobs, Rank)
         <= Sum(s.t.jobs, Rank)
    decreases |steps|
  {
    if steps != [] {
      StepLowers(c, s, steps[0]);
      StepKeepsInv(c, s, steps[0]);
      BoundedWork(c, Next(c, s, steps[0]), steps[1..]);
    }
  }

  lemma ClaimsAreBounded(c: Codec<Float32>, s: State, steps: seq<Step>)
    requires Inv(c, s) && Schedule(c, s, steps) && forall step | step in steps :: AddsNoWork(step)
    ensures RunClaims(c, s, steps) <= Sum(s.t.jobs, MaxAttempts)
  {
    BoundedWork(c, s, steps);
    forall k | k in s.t.jobs
      ensures Budget(s.t.jobs[k]) <= MaxAttempts(s.t.jobs[k])
    {
      assert JobOk(s.t.jobs[k]);
    }
    SumAtMost(s.t.jobs, Budget, MaxAttempts);
  }

  // ---------- where runs end ----------

  predicate Done(j: Job) {
    j.status.Ready? || j.status.Failed?
  }

  predicate InHand(s: State, k: Key) {
    k in s.owner && IsWorking(s, s.owner[k]) && k in KeysOf(s.workers[s.owner[k]].left)
  }

  /** Nobody has dropped a job: whatever is being processed is in some worker's hands. */
  predicate NothingLost(s: State) {
    forall k | k in s.t.jobs && s.t.jobs[k].status.Processing? :: InHand(s, k)
  }

  /** A step drops a job when a failure goes unrecorded or a worker goes away with its batch unfinished. */
  predicate Drops(s: State, step: Step) {
    || (step.Lose? && IsWorking(s, step.w) && s.workers[step.w].left[0].key in s.t.jobs)
    || (step.Vanish? && IsWorking(s, step.w) && exists k :: k in KeysOf(s.workers[step.w].left) && k in s.t.jobs)
  }

  lemma NoRepeatsOn(keys: seq<Key>, k: Key)
    requires NoRepeats(keys) && k !in keys
    ensures NoRepeats(keys + [k])
  {
    forall i | 0 <= i <= |keys|
      ensures (keys + [k])[i] !in (keys + [k])[..i]
    {
      assert (keys + [k])[..i] == keys[..i];
    }
  }

  /** There is a batch for every limit: the batch for one less, and the first of the other candidates. */
  lemma {:induction false} BatchExists(jobs: Jobs, locked: set<Key>, now: int, limit: nat) returns (keys: seq<Key>)
    ensures IsBatch(jobs, locked, now, limit, keys)
  {
    keys := [];
    if limit > 0 {
      keys := BatchExists(jobs, locked, now, limit - 1);
      var left := set k | k in jobs && k !in locked && k !in keys && Candidate(jobs[k], now);
      assert forall k | k in jobs && k !in locked && Candidate(jobs[k], now) :: k in keys || k in left;
      if left != {} {
        var first := EmbeddingRepo.OneComesFirst(jobs, left);
        NoRepeatsOn(keys, first);
        keys := keys + [first];
      }
    }
  }

  predicate IsProgress(step: Step) {
    (step.Select? && step.keys != []) || step.Commit? || step.Fail?
  }

  /** While nothing has been dropped, an unfinished job means some worker can go on: the queue can only come to
      rest with every job ready or failed. */
  lemma StuckMeansDone(c: Codec<Float32>, s: State, k: Key, idle: WorkerId, name: string) returns (step: Step)
    requires Inv(c, s) && NothingLost(s) && k in s.t.jobs && !Done(s.t.jobs[k])
    requires idle !in s.workers
    ensures Enabled(s, step) && IsProgress(step)
  {
    if s.t.jobs[k].status.Processing? {
      var w := s.owner[k];
      assert InHand(s, k);
      var at := s.workers[w].left[0].job.lockedAt;
      step := Fail(w, if at.Some? then at.value else 0);
    } else if k in s.locks {
      step := Commit(s.locks[k]);
      ChosenAreCandidates(s, s.locks[k]);
    } else {
      var now := s.t.jobs[k].available;
      var keys := BatchExists(s.t.jobs, s.locks.Keys, now, BatchLimit(1));
      assert Candidate(s.t.jobs[k], now);
      step := Select(idle, name, now, 1, keys);
    }
  }

  lemma ProgressIsCounted(c: Codec<Float32>, s: State, step: Step)
    requires Inv(c, s) && Enabled(s, step)
    requires step.Commit? || (step.Fail? && s.workers[step.w].left[0].key in s.t.jobs)
    ensures ClaimsOf(s, step) + SettlesOf(s, step) > 0
  {
  }

  lemma StillInHand(s: State, s': State, k: Key)
    requires InHand(s, k) && s'.owner == s.owner
    requires s.owner[k] in s'.workers && s'.workers[s.owner[k]] == s.workers[s.owner[k]]
    ensures InHand(s', k)
  {
  }

  /** After a job is settled or lost, what its worker still has is the rest of its batch. */
  lemma PoppedKeepsRest(s: State, s': State, w: WorkerId, k: Key)
    requires SettlesOnly(s, s', w) && InHand(s, k) && k != s.workers[w].left[0].key
    ensures InHand(s', k)
  {
  }

  lemma SettleKeepsOthersInHand(s: State, s': State, w: WorkerId)
    requires SettlesOnly(s, s', w) && NothingLost(s)
    requires var k := s.workers[w].left[0].key; k in s.t.jobs ==> !s'.t.jobs[k].status.Processing?
    ensures NothingLost(s')
  {
    forall k | k in s'.t.jobs && s'.t.jobs[k].status.Processing?
      ensures InHand(s', k)
    {
      PoppedKeepsRest(s, s', w, k);
    }
  }

  lemma DroppedByLose(c: Codec<Float32>, s: State, w: WorkerId)
    requires Inv(c, s) && IsWorking(s, w) && s.workers[w].left[0].key in s.t.jobs
    ensures !NothingLost(Next(c, s, Lose(w)))
  {
    var s' := Next(c, s, Lose(w));
    var left := s.workers[w].left;
    var k := left[0].key;
    HeadHeld(s, w);
    assert Holds(s, w, left);
    RestHasNoRepeats(left);
    assert s'.t.jobs[k].status.Processing? && s'.owner[k] == w && !InHand(s', k);
  }

  lemma DroppedByVanish(c: Codec<Float32>, s: State, w: WorkerId, k: Key)
    requires Inv(c, s) && IsWorking(s, w) && k in KeysOf(s.workers[w].left) && k in s.t.jobs
    ensures !NothingLost(Next(c, s, Vanish(w)))
  {
    var left := s.workers[w].left;
    assert Holds(s, w, left);
    var i :| 0 <= i < |left| && KeysOf(left)[i] == k;
    assert HoldsOne(s, w, left[i]);
    assert !InHand(Next(c, s, Vanish(w)), k);
  }

  lemma CommitLosesNothing(c: Codec<Float32>, s: State, w: WorkerId)
    requires Enabled(s, Commit(w)) && AllWaiting(s.t.jobs, s.workers[w].keys) && NothingLost(s)
    requires s.workers[w].keys != []
    ensures NothingLost(Next(c, s, Commit(w)))
  {
    var s' := Next(c, s, Commit(w));
    var keys := s.workers[w].keys;
    assert KeysOf(s'.workers[w].left) == keys;
    forall k | k in s'.t.jobs && s'.t.jobs[k].status.Processing?
      ensures InHand(s', k)
    {
      if k !in keys {
        assert InHand(s, k);
      }
    }
  }

  /** The rows an indexing adds are pending, with keys nobody held before. */
  lemma IndexAddsPending(c: Codec<Float32>, s: State, step: Step)
    requires step.Index? && Enabled(s, step)
    ensures forall k | k in Next(c, s, step).t.jobs ::
      Next(c, s, step).t.jobs[k].status.Pending?
      || (k in s.t.jobs && Next(c, s, step).t.jobs[k] == s.t.jobs[k])
  {
    var jobs := Next(c, s, step).t.jobs;
    IndexIsInsert(c, s, step);
    var t := Cleared(s.t, step.snapshot);
    InsertedAreRows(t.jobs, IndexRows(step));
    forall k | k in jobs && k !in t.jobs
      ensures jobs[k].status.Pending?
    {
      assert FreshRow(step.b, Claim(k, jobs[k]));
    }
  }

  lemma IndexLosesNothing(c: Codec<Float32>, s: State, step: Step)
    requires step.Index? && Enabled(s, step) && NothingLost(s)
    ensures NothingLost(Next(c, s, step))
  {
    var s' := Next(c, s, step);
    IndexAddsPending(c, s, step);
    forall k | k in s'.t.jobs && s'.t.jobs[k].status.Processing?
      ensures InHand(s', k)
    {
      assert InHand(s, k);
    }
  }

  lemma OtherStepsLoseNothing(c: Codec<Float32>, s: State, step: Step)
    requires Enabled(s, step) && NothingLost(s)
    requires step.Select? || step.Retry? || (step.Vanish? && IsChoosing(s, step.w))
    ensures NothingLost(Next(c, s, step))
  {
  }

  /** Jobs are dropped exactly by unrecorded failures and by workers going away in the middle of a batch. */
  lemma DroppingIff(c: Codec<Float32>, s: State, step: Step)
    requires Inv(c, s) && Enabled(s, step) && NothingLost(s)
    ensures NothingLost(Next(c, s, step)) <==> !Drops(s, step)
  {
    match step
    case Commit(w) =>
      ChosenAreCandidates(s, w);
      CommitLosesNothing(c, s, w);
    case Succeed(_, _) => SettlingIff(c, s, step);
    case Fail(_, _) => SettlingIff(c, s, step);
    case Lose(_) => SettlingIff(c, s, step);
    case Index(_, _, _, _, _, _) => IndexLosesNothing(c, s, step);
    case Vanish(w) =>
      if s.workers[w].Working? {
        VanishWorking(c, s, w);
      } else {
        OtherStepsLoseNothing(c, s, step);
      }
    case _ => OtherStepsLoseNothing(c, s, step);
  }

  lemma SettlingIff(c: Codec<Float32>, s: State, step: Step)
    requires Inv(c, s) && Enabled(s, step) && NothingLost(s)
    requires step.Succeed? || step.Fail? || step.Lose?
    ensures NothingLost(Next(c, s, step)) <==> !Drops(s, step)
  {
    if Drops(s, step) {
      DroppedByLose(c, s, step.w);
    } else {
      HeadHeld(s, step.w);
      SettleKeepsOthersInHand(s, Next(c, s, step), step.w);
    }
  }

  lemma VanishWorking(c: Codec<Float32>, s: State, w: WorkerId)
    requires Inv(c, s) && NothingLost(s) && w in s.workers && s.workers[w].Working?
    ensures NothingLost(Next(c, s, Vanish(w))) <==> !Drops(s, Vanish(w))
  {
    assert Holds(s, w, s.workers[w].left);
    if Drops(s, Vanish(w)) {
      var k :| k in KeysOf(s.workers[w].left) && k in s.t.jobs;
      DroppedByVanish(c, s, w, k);
    } else {
      var s' := Next(c, s, Vanish(w));
      forall k | k in s'.t.jobs && s'.t.jobs[k].status.Processing?
        ensures InHand(s', k)
      {
        assert InHand(s, k);
        assert s.owner[k] != w;
        StillInHand(s, s', k);
      }
    }
  }

  ghost predicate NeverDrops(c: Codec<Float32>, s: State, steps: seq<Step>)
    requires Schedule(c, s, steps)
    decreases |steps|
  {
    steps != [] ==> !Drops(s, steps[0]) && NeverDrops(c, Next(c, s, steps[0]), steps[1..])
  }

  lemma {:induction false} RunsLoseNothing(c: Codec<Float32>, s: State, steps: seq<Step>)
    requires Inv(c, s) && NothingLost(s) && Schedule(c, s, steps) && NeverDrops(c, s, steps)
    ensures NothingLost(After(c, s, steps))
    decreases |steps|
  {
    if steps != [] {
      StepKeepsInv(c, s, steps[0]);
      DroppingIff(c, s, steps[0]);
      RunsLoseNothing(c, Next(c, s, steps[0]), steps[1..]);
    }
  }

  /** A run that drops nothing and cannot go on, though there is an idle worker, has every job ready or failed. */
  lemma RestMeansDone(c: Codec<Float32>, steps: seq<Step>, idle: WorkerId, name: string)
    requires Schedule(c, EMPTY, steps) && NeverDrops(c, EMPTY, steps)
    requires idle !in After(c, EMPTY, steps).workers
    requires forall step | Enabled(After(c, EMPTY, steps), step) :: !IsProgress(step)
    ensures forall k | k in After(c, EMPTY, steps).t.jobs :: Done(After(c, EMPTY, steps).t.jobs[k])
  {
    EveryRunKeepsInv(c, steps);
    RunsLoseNothing(c, EMPTY, steps);
    var s := After(c, EMPTY, steps);
    forall k | k in s.t.jobs
      ensures Done(s.t.jobs[k])
    {
      if !Done(s.t.jobs[k]) {
        var step := StuckMeansDone(c, s, k, idle, name);
      }
    }
  }

  predicate Dropped(s: State, k: Key) {
    k in s.t.jobs && s.t.jobs[k].status.Processing? && !InHand(s, k)
  }

  predicate Frozen(s: State, s': State, k: Key)
    requires k in s.t.jobs
  {
    k in s'.t.jobs && s'.t.jobs[k] == s.t.jobs[k] && !InHand(s', k)
  }

  lemma CommitLeavesDropped(c: Codec<Float32>, s: State, step: Step, k: Key)
    requires step.Commit? && Enabled(s, step) && ChoosersOk(s) && LocksOk(s) && Dropped(s, k)
    ensures Frozen(s, Next(c, s, step), k)
  {
    var s' := Next(c, s, step);
    ChosenAreCandidates(s, step.w);
    assert KeysOf(s'.workers[step.w].left) == s.workers[step.w].keys;
    assert k !in s.workers[step.w].keys;
  }

  lemma SettleLeavesDropped(c: Codec<Float32>, s: State, step: Step, k: Key)
    requires Enabled(s, step) && (step.Succeed? || step.Fail? || step.Lose?) && HeldOk(s) && Dropped(s, k)
    ensures Frozen(s, Next(c, s, step), k)
  {
    HeadHeld(s, step.w);
    NotHeadOfOthers(s, step.w, k);
    PoppedAddsNothing(s, Next(c, s, step), step.w, k);
  }

  /** A dropped job is never picked up again: it stays as it is, unless its snapshot is indexed anew. */
  lemma DroppedStaysDropped(c: Codec<Float32>, s: State, step: Step, k: Key)
    requires Inv(c, s) && Enabled(s, step) && Dropped(s, k)
    requires step.Index? ==> step.snapshot != s.t.jobs[k].snapshot
    ensures Frozen(s, Next(c, s, step), k)
  {
    match step
    case Commit(_) => CommitLeavesDropped(c, s, step, k);
    case Succeed(_, _) => SettleLeavesDropped(c, s, step, k);
    case Fail(_, _) => SettleLeavesDropped(c, s, step, k);
    case Lose(_) => SettleLeavesDropped(c, s, step, k);
    case Index(_, _, _, _, _, _) => IndexLeavesDropped(c, s, step, k);
    case _ => OtherLeavesDropped(c, s, step, k);
  }

  lemma IndexLeavesDropped(c: Codec<Float32>, s: State, step: Step, k: Key)
    requires step.Index? && Enabled(s, step) && Refers(s.t, s.used) && Dropped(s, k)
    requires step.snapshot != s.t.jobs[k].snapshot
    ensures Frozen(s, Next(c, s, step), k)
  {
    IndexIsInsert(c, s, step);
    InsertedAreRows(Cleared(s.t, step.snapshot).jobs, IndexRows(step));
  }

  lemma OtherLeavesDropped(c: Codec<Float32>, s: State, step: Step, k: Key)
    requires Enabled(s, step) && Dropped(s, k) && (step.Select? || step.Vanish? || step.Retry?)
    ensures Frozen(s, Next(c, s, step), k)
  {
  }

  lemma NotHeadOfOthers(s: State, w: WorkerId, k: Key)
    requires HeldOk(s) && IsWorking(s, w) && !InHand(s, k)
    ensures k != s.workers[w].left[0].key
  {
    HeadHeld(s, w);
    var left := s.workers[w].left;
    assert KeysOf(left)[0] == left[0].key;
  }

  lemma PoppedAddsNothing(s: State, s': State, w: WorkerId, k: Key)
    requires IsWorking(s, w) && s'.workers == Popped(s.workers, w) && s'.owner == s.owner && !InHand(s, k)
    ensures !InHand(s', k)
  {
  }

  /** So over any run: a dropped job is exactly as it was, and in nobody's hands, until its snapshot is indexed anew. */
  lemma {:induction false} DroppedForever(c: Codec<Float32>, s: State, steps: seq<Step>, k: Key)
    requires Inv(c, s) && Schedule(c, s, steps) && Dropped(s, k)
    requires forall step | step in steps && step.Index? :: step.snapshot != s.t.jobs[k].snapshot
    ensures Frozen(s, After(c, s, steps), k)
    decreases |steps|
  {
    if steps != [] {
      StepKeepsInv(c, s, steps[0]);
      DroppedStaysDropped(c, s, steps[0], k);
      DroppedForever(c, Next(c, s, steps[0]), steps[1..], k);
    }
  }

  // ---------- every job can be finished ----------

  lemma {:induction false} NumberAbove(ws: set<WorkerId>) returns (n: WorkerId)
    ensures forall w | w in ws :: w < n
    decreases ws
  {
    n := 0;
    if ws != {} {
      var w :| w in ws;
      n := NumberAbove(ws - {w});
      assert forall x | x in ws :: x == w || x in ws - {w};
      if n <= w {
        n := w + 1;
      }
    }
  }

  /** The jobs a worker still has in hand. */
  function Load(p: Phase): nat {
    if p.Working? then |p.left| else 0
  }

  lemma PoppingLightens(workers: map<WorkerId, Phase>, w: WorkerId)
    requires w in workers && workers[w].Working? && workers[w].left != []
    ensures Sum(Popped(workers, w), Load) < Sum(workers, Load)
  {
    SumTakes(workers, Load, w);
    assert Load(workers[w]) == |workers[w].left|;
    if |workers[w].left| > 1 {
      assert Load(Working(workers[w].left[1..])) == |workers[w].left| - 1;
      SumUpdate(workers, Load, w, Working(workers[w].left[1..]));
    }
  }

  /** Running `step` and then `rest`, neither of which adds work or drops a job. */
  lemma RunOn(c: Codec<Float32>, s: State, step: Step, rest: seq<Step>)
    requires Enabled(s, step) && AddsNoWork(step) && !Drops(s, step)
    requires Schedule(c, Next(c, s, step), rest) && NeverDrops(c, Next(c, s, step), rest)
    requires forall later | later in rest :: AddsNoWork(later)
    ensures var steps := [step] + rest;
            && Schedule(c, s, steps) && NeverDrops(c, s, steps)
            && After(c, s, steps) == After(c, Next(c, s, step), rest)
            && forall later | later in steps :: AddsNoWork(later)
  {
    assert ([step] + rest)[1..] == rest;
  }

  lemma ProgressKeeps(c: Codec<Float32>, s: State, step: Step)
    requires Inv(c, s) && NothingLost(s) && Enabled(s, step) && IsProgress(step)
    ensures Inv(c, Next(c, s, step)) && NothingLost(Next(c, s, step)) && !Drops(s, step)
    ensures Sum(Next(c, s, step).t.jobs, Rank) <= Sum(s.t.jobs, Rank)
    ensures step.Commit? ==> Sum(Next(c, s, step).t.jobs, Rank) < Sum(s.t.jobs, Rank)
    ensures step.Fail? ==> Sum(Next(c, s, step).workers, Load) < Sum(s.workers, Load)
  {
    StepKeepsInv(c, s, step);
    DroppingIff(c, s, step);
    StepLowers(c, s, step);
    if step.Commit? {
      ProgressIsCounted(c, s, step);
    }
    if step.Fail? {
      PoppingLightens(s.workers, step.w);
    }
  }

  lemma SelectedCommits(c: Codec<Float32>, s: State, step: Step)
    requires Inv(c, s) && Enabled(s, step) && step.Select? && step.keys != []
    ensures Enabled(Next(c, s, step), Commit(step.w)) && Next(c, s, step).t == s.t
  {
  }

  /** From every reachable state that has lost nothing, some run without new work and without losses finishes every
      job, whatever the provider does. */
  lemma {:induction false} EveryJobFinishes(c: Codec<Float32>, s: State, name: string) returns (steps: seq<Step>)
    requires Inv(c, s) && NothingLost(s)
    ensures Schedule(c, s, steps) && NeverDrops(c, s, steps) && forall step | step in steps :: AddsNoWork(step)
    ensures forall k | k in After(c, s, steps).t.jobs :: Done(After(c, s, steps).t.jobs[k])
    decreases Sum(s.t.jobs, Rank), Sum(s.workers, Load)
  {
    steps := [];
    if k :| k in s.t.jobs && !Done(s.t.jobs[k]) {
      var idle := NumberAbove(s.workers.Keys);
      var step := StuckMeansDone(c, s, k, idle, name);
      var s1 := Next(c, s, step);
      ProgressKeeps(c, s, step);
      if step.Select? {
        SelectedCommits(c, s, step);
        var commit := Commit(step.w);
        ProgressKeeps(c, s1, commit);
        var rest := EveryJobFinishes(c, Next(c, s1, commit), name);
        RunOn(c, s1, commit, rest);
        steps := [commit] + rest;
      } else {
        steps := EveryJobFinishes(c, s1, name);
      }
      RunOn(c, s, step, steps);
      steps := [step] + steps;
    }
  }
}

/** What an indexed snapshot's coverage report adds up to, and how the worker's code follows the fleet's steps. */
module EmbeddingCounts {
  import opened Common
  import opened VectorCodec
  import opened EmbeddingModel
  import opened EmbeddingFleet
  import opened EmbeddingProgress
  import opened EmbeddingRepo

  // ---------- enqueueing twice ----------

  /** Enqueueing the same rows again changes nothing. */
  lemma {:induction false} EnqueueIsIdempotent(jobs: Jobs, rows: seq<Claim>)
    ensures InsertAbsent(InsertAbsent(jobs, rows), rows) == InsertAbsent(jobs, rows)
  {
    InsertedAreRows(jobs, rows);
    NothingToInsert(InsertAbsent(jobs, rows), rows);
  }

  lemma {:induction false} NothingToInsert(jobs: Jobs, rows: seq<Claim>)
    requires forall row | row in rows :: row.key in jobs
    ensures InsertAbsent(jobs, rows) == jobs
  {
    if rows != [] {
      NothingToInsert(jobs, rows[..|rows| - 1]);
    }
  }

  // ---------- the coverage report ----------

  /** The jobs one line of the report counts. */
  function JobsIn(t: Tables, snapshot: Id, provider: string, model: string, status: Status): set<Key> {
    set k | k in t.jobs && Concerns(k, t.jobs[k], snapshot, provider, model) && t.jobs[k].status == status
  }

  /** The embeddings the report counts as ready. */
  function ReadyIn(t: Tables, snapshot: Id, provider: string, model: string): set<Key> {
    set k | k in t.embeddings && t.embeddings[k].snapshot == snapshot
            && (provider == "" || k.provider == provider) && (model == "" || k.model == model)
  }

  function DocumentsIn(t: Tables, snapshot: Id): set<Id> {
    set d | d in t.documents && t.documents[d].snapshot == snapshot
  }

  /** The five counts of the report together. */
  function Reported(t: Tables, snapshot: Id, provider: string, model: string): nat {
    |JobsIn(t, snapshot, provider, model, Pending)| + |JobsIn(t, snapshot, provider, model, Processing)|
    + |JobsIn(t, snapshot, provider, model, Retrying)| + |JobsIn(t, snapshot, provider, model, Failed)|
    + |ReadyIn(t, snapshot, provider, model)|
  }

  /** Every document of the snapshot was queued for this provider and model. */
  predicate Queued(t: Tables, snapshot: Id, provider: string, model: string) {
    && provider != "" && model != ""
    && forall d | d in t.documents && t.documents[d].snapshot == snapshot ::
         Key(d, provider, model, t.documents[d].contentHash) in t.jobs
  }

  lemma {:induction false} SameSize(docs: set<Id>, keys: set<Key>, t: Tables, provider: string, model: string)
    requires forall d | d in docs :: d in t.documents
    requires keys == set d | d in docs :: Key(d, provider, model, t.documents[d].contentHash)
    ensures |keys| == |docs|
    decreases docs
  {
    if docs == {} {
    } else {
      var d :| d in docs;
      var k := Key(d, provider, model, t.documents[d].contentHash);
      SameSize(docs - {d}, keys - {k}, t, provider, model);
    }
  }

  /** The five counts of the report add up to the number of documents, whatever the workers are doing. */
  lemma CountsAddUp(c: Codec<Float32>, s: State, snapshot: Id, provider: string, model: string)
    requires Inv(c, s) && Queued(s.t, snapshot, provider, model)
    ensures Reported(s.t, snapshot, provider, model) == |DocumentsIn(s.t, snapshot)|
  {
    var t := s.t;
    var docs := DocumentsIn(t, snapshot);
    var keys := set d | d in docs :: Key(d, provider, model, t.documents[d].contentHash);
    SameSize(docs, keys, t, provider, model);
    ReadyRowsAreReadyJobs(c, t, s.produced, snapshot, provider, model);
    JobsAreDocuments(t, s.used, snapshot, provider, model, keys);
    PartsAddUp(t, snapshot, provider, model);
  }

  lemma SizesAdd<T>(a: set<T>, b: set<T>)
    requires a !! b
    ensures |a + b| == |a| + |b|
  {
  }

  lemma PartsAddUp(t: Tables, snapshot: Id, provider: string, model: string)
    ensures |JobsIn(t, snapshot, provider, model, Pending) + JobsIn(t, snapshot, provider, model, Processing)
             + JobsIn(t, snapshot, provider, model, Retrying) + JobsIn(t, snapshot, provider, model, Failed)
             + JobsIn(t, snapshot, provider, model, Ready)|
         == |JobsIn(t, snapshot, provider, model, Pending)| + |JobsIn(t, snapshot, provider, model, Processing)|
            + |JobsIn(t, snapshot, provider, model, Retrying)| + |JobsIn(t, snapshot, provider, model, Failed)|
            + |JobsIn(t, snapshot, provider, model, Ready)|
  {
    var a := JobsIn(t, snapshot, provider, model, Pending);
    var b := JobsIn(t, snapshot, provider, model, Processing);
    var d := JobsIn(t, snapshot, provider, model, Retrying);
    var e := JobsIn(t, snapshot, provider, model, Failed);
    var f := JobsIn(t, snapshot, provider, model, Ready);
    SizesAdd(a, b);
    SizesAdd(a + b, d);
    SizesAdd(a + b + d, e);
    SizesAdd(a + b + d + e, f);
  }

  lemma ReadyRowsAreReadyJobs(c: Codec<Float32>, t: Tables, produced: map<Key, seq<Float32>>,
                              snapshot: Id, provider: string, model: string)
    requires IndexAgrees(c, t, produced)
    ensures ReadyIn(t, snapshot, provider, model) == JobsIn(t, snapshot, provider, model, Ready)
  {
  }

  lemma JobsAreDocuments(t: Tables, used: set<Id>, snapshot: Id, provider: string, model: string, keys: set<Key>)
    requires Refers(t, used) && Queued(t, snapshot, provider, model)
    requires keys == set d | d in DocumentsIn(t, snapshot) :: Key(d, provider, model, t.documents[d].contentHash)
    ensures JobsIn(t, snapshot, provider, model, Pending) + JobsIn(t, snapshot, provider, model, Processing)
            + JobsIn(t, snapshot, provider, model, Retrying) + JobsIn(t, snapshot, provider, model, Failed)
            + JobsIn(t, snapshot, provider, model, Ready)
         == keys
  {
    var jobs := set k | k in t.jobs && Concerns(k, t.jobs[k], snapshot, provider, model);
    assert jobs == keys by {
      forall k | k in jobs
        ensures k in keys
      {
        assert k.document in DocumentsIn(t, snapshot);
      }
    }
    forall k | k in jobs
      ensures k in JobsIn(t, snapshot, provider, model, t.jobs[k].status)
    {
    }
  }

  /** Indexing a snapshot for a provider queues all its documents... */
  lemma IndexQueuesAll(c: Codec<Float32>, s: State, step: Step)
    requires step.Index? && Enabled(s, step) && step.provider != "" && step.model != ""
    ensures Queued(Next(c, s, step).t, step.snapshot, step.provider, step.model)
  {
    var t' := Next(c, s, step).t;
    IndexIsInsert(c, s, step);
    InsertedAreRows(Cleared(s.t, step.snapshot).jobs, IndexRows(step));
    forall d | d in t'.documents && t'.documents[d].snapshot == step.snapshot
      ensures Key(d, step.provider, step.model, t'.documents[d].contentHash) in t'.jobs
    {
      assert d in step.b.documents && d in step.b.ids;
      var i :| 0 <= i < |step.b.ids| && step.b.ids[i] == d;
      RowIsMade(step.b.ids, step.b.documents, step.provider, step.model, step.dimensions, step.now, i);
    }
  }

  lemma {:induction false} RowIsMade(ids: seq<Id>, documents: map<Id, Document>, provider: string, model: string,
                                     dimensions: int, now: int, i: nat)
    requires i < |ids| && (forall id | id in ids :: id in documents)
    requires ids[i] != NIL && documents[ids[i]].contentHash != ""
    ensures exists row ::
      row in NewRows(ids, documents, provider, model, dimensions, 0, 0, now)
      && row.key == Key(ids[i], provider, model, documents[ids[i]].contentHash)
  {
    var n := |ids| - 1;
    if i == n {
      assert RowsFor(ids[n], documents[ids[n]], provider, model, dimensions, 0, 0, now)[0]
             in NewRows(ids, documents, provider, model, dimensions, 0, 0, now);
    } else {
      RowIsMade(ids[..n], documents, provider, model, dimensions, now, i);
    }
  }

  /** ...and they stay queued until the snapshot is indexed again. */
  lemma StepKeepsQueued(c: Codec<Float32>, s: State, step: Step, snapshot: Id, provider: string, model: string)
    requires Enabled(s, step) && Queued(s.t, snapshot, provider, model)
    requires step.Index? ==> step.snapshot != snapshot
    ensures Queued(Next(c, s, step).t, snapshot, provider, model)
    ensures DocumentsIn(Next(c, s, step).t, snapshot) == DocumentsIn(s.t, snapshot)
  {
    if step.Index? {
      IndexIsInsert(c, s, step);
      InsertedAreRows(Cleared(s.t, step.snapshot).jobs, IndexRows(step));
    }
  }

  lemma {:induction false} RunKeepsQueued(
      c: Codec<Float32>, s: State, steps: seq<Step>, snapshot: Id, provider: string, model: string)
    requires Schedule(c, s, steps) && Queued(s.t, snapshot, provider, model)
    requires forall step | step in steps && step.Index? :: step.snapshot != snapshot
    ensures Queued(After(c, s, steps).t, snapshot, provider, model)
    ensures DocumentsIn(After(c, s, steps).t, snapshot) == DocumentsIn(s.t, snapshot)
    decreases |steps|
  {
    if steps != [] {
      StepKeepsQueued(c, s, steps[0], snapshot, provider, model);
      RunKeepsQueued(c, Next(c, s, steps[0]), steps[1..], snapshot, provider, model);
    }
  }

  function IdSet(ids: seq<Id>): set<Id> {
    if ids == [] then {} else IdSet(ids[..|ids| - 1]) + {ids[|ids| - 1]}
  }

  lemma {:induction false} IdSetIs(ids: seq<Id>)
    ensures forall id :: id in IdSet(ids) <==> id in ids
  {
    if ids != [] {
      var n := |ids| - 1;
      IdSetIs(ids[..n]);
      assert ids == ids[..n] + [ids[n]];
    }
  }

  lemma {:induction false} IdSetSize(ids: seq<Id>)
    requires forall i | 0 <= i < |ids| :: ids[i] !in ids[..i]
    ensures |IdSet(ids)| == |ids|
  {
    if ids != [] {
      var n := |ids| - 1;
      forall i | 0 <= i < n
        ensures ids[..n][i] !in ids[..n][..i]
      {
        assert ids[..n][..i] == ids[..i];
      }
      IdSetSize(ids[..n]);
      IdSetIs(ids[..n]);
    }
  }

  lemma IndexedDocuments(c: Codec<Float32>, s: State, step: Step)
    requires step.Index? && Enabled(s, step)
    ensures |DocumentsIn(Next(c, s, step).t, step.snapshot)| == |step.b.ids|
  {
    IndexIsInsert(c, s, step);
    IdSetIs(step.b.ids);
    IdSetSize(step.b.ids);
    assert DocumentsIn(Next(c, s, step).t, step.snapshot) == IdSet(step.b.ids);
  }

  /** From an indexing on, through any run that does not index the snapshot again, the report's five counts add up to
      the number of documents indexed. */
  lemma CountsAfterIndexing(c: Codec<Float32>, s: State, step: Step, steps: seq<Step>)
    requires Inv(c, s) && step.Index? && Enabled(s, step) && step.provider != "" && step.model != ""
    requires Schedule(c, Next(c, s, step), steps)
    requires forall later | later in steps && later.Index? :: later.snapshot != step.snapshot
    ensures Reported(After(c, Next(c, s, step), steps).t, step.snapshot, step.provider, step.model) == |step.b.ids|
  {
    var s1 := Next(c, s, step);
    StepKeepsInv(c, s, step);
    RunsKeepInv(c, s1, steps);
    IndexQueuesAll(c, s, step);
    IndexedDocuments(c, s, step);
    RunKeepsQueued(c, s1, steps, step.snapshot, step.provider, step.model);
    CountsAddUp(c, After(c, s1, steps), step.snapshot, step.provider, step.model);
  }

  // ---------- the worker's code ----------

  /** The step of the fleet that one attempt of the worker amounts to. */
  function AttemptStep(t: Tables, w: WorkerId, claim: Claim, luck: Luck): Step {
    if Embeds(t, claim, luck) then Succeed(w, luck.answer.value[0])
    else if luck.recorded then Fail(w, luck.now)
    else Lose(w)
  }

  /** Whatever the attempt meets, the worker's code does to the tables what some enabled step does. */
  lemma AttemptIsAStep(c: Codec<Float32>, s: State, w: WorkerId, luck: Luck)
    requires IsWorking(s, w)
    requires var at := s.workers[w].left[0].job.lockedAt; at.Some? ==> at.value <= luck.now
    ensures var claim := s.workers[w].left[0];
            var step := AttemptStep(s.t, w, claim, luck);
            && Enabled(s, step)
            && Next(c, s, step).t == Processed(c, s.t, claim, luck)
            && Next(c, s, step).workers == Popped(s.workers, w)
  {
  }
}

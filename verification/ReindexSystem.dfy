/**
 The queue of re-embedding jobs and the documents together. Workers claim jobs, read, store and report
 in steps of their own, while uploads, activations, other workers, crashes and lapsed leases come
 between any two of them. A run is a list of steps; a step that cannot be taken changes nothing.
 */
module ReindexSystem {
  import opened Wrappers
  import opened RowIds
  import D = Documents
  import J = ReindexJobs

  type Vector = D.Vector

  /** How far a worker is with the job it holds. */
  datatype Progress =
    | Taken                                                // about to read the document
    | Seen(head: D.Head)                                   // about to read the chunks
    | Read(source: D.Source)                               // waiting for vectors, then about to store them
    | Stored(source: D.Source, vectors: seq<Vector>)       // about to report

  /** A worker stored vectors on behalf of a job: the chunks before and after. */
  datatype Entry = Entry(job: Id, source: D.Source, vectors: seq<Vector>, before: D.Db, after: D.Db)

  datatype Setup = Setup(config: J.Config, dimension: nat)

  datatype State = State(docs: D.State, jobs: J.State, progress: map<Id, Progress>, log: seq<Entry>)

  datatype Step =
    | Other(document: D.Step)
    | Queue(queue: J.Step)
    | ReadHead(w: Id)
    | ReadChunks(w: Id, pieces: seq<D.Piece>)
    | Store(w: Id, vectors: seq<Vector>)
    | Finish(w: Id)
    | GiveUp(w: Id, reason: J.Reason)

  predicate Holds(s: State, w: Id) {
    w in s.progress && J.Holds(s.jobs, w)
  }

  /** The document of the job that a worker holds. */
  function DocumentOf(s: State, w: Id): Id
    requires J.Holds(s.jobs, w)
  {
    s.jobs.jobs[s.jobs.held[w].job].document
  }

  /** Steps of the queue that are not reports: those come with the worker's progress. */
  function QueueStep(c: Setup, s: State, step: J.Step): State {
    var jobs := J.Do(c.config, s.jobs, step);
    match step
    case Enqueue(_, _) => s.(jobs := jobs)
    case Tick(_) => s.(jobs := jobs)
    case Stage(_) => s.(jobs := jobs)
    case Claim(w, _) =>
      if w !in s.jobs.held && w in jobs.held then s.(jobs := jobs, progress := s.progress[w := Taken]) else s
    case Crash(w) => s.(jobs := jobs, progress := s.progress - {w})
    case _ => s
  }

  ghost function Do(c: Setup, s: State, step: Step): State {
    match step
    case Other(d) =>
      if d.SaveStep? || d.ActiveStep? || d.BaseStep? || d.DeleteStep? then s.(docs := D.Do(c.dimension, s.docs, d))
      else s
    case Queue(q) => QueueStep(c, s, q)
    case ReadHead(w) =>
      if Holds(s, w) && s.progress[w].Taken? && D.ReadHead(s.docs.db, DocumentOf(s, w)).Success? then
        s.(docs := D.Do(c.dimension, s.docs, D.HeadStep(DocumentOf(s, w))),
           progress := s.progress[w := Seen(D.ReadHead(s.docs.db, DocumentOf(s, w)).value)])
      else s
    case ReadChunks(w, pieces) =>
      if Holds(s, w) && s.progress[w].Seen? && D.Lists(s.docs.db.chunks, s.progress[w].head, pieces)
        && pieces != [] then
        var source := D.Source(s.progress[w].head, pieces);
        s.(docs := D.Do(c.dimension, s.docs, D.ChunksStep(source)), progress := s.progress[w := Read(source)])
      else s
    case Store(w, vectors) =>
      if Holds(s, w) && s.progress[w].Read?
        && D.Apply(s.docs.db, c.dimension, s.progress[w].source, vectors).result.Success? then
        var source := s.progress[w].source;
        var docs := D.Do(c.dimension, s.docs, D.ApplyStep(source, vectors));
        s.(docs := docs, progress := s.progress[w := Stored(source, vectors)],
           log := s.log + [Entry(s.jobs.held[w].job, source, vectors, s.docs.db, docs.db)])
      else s
    case Finish(w) =>
      if Holds(s, w) && s.progress[w].Stored? then
        s.(jobs := J.Do(c.config, s.jobs, J.Complete(w)), progress := s.progress - {w})
      else s
    case GiveUp(w, reason) =>
      if Holds(s, w) then s.(jobs := J.Do(c.config, s.jobs, J.Fail(w, reason)), progress := s.progress - {w}) else s
  }

  ghost function Exec(c: Setup, s: State, steps: seq<Step>): State
    decreases |steps|
  {
    if steps == [] then s else Exec(c, Do(c, s, steps[0]), steps[1..])
  }

  function Init(bases: map<Id, D.Base>, now: int): State {
    State(D.Init(bases), J.Init(now), map[], [])
  }

  ghost predicate Reachable(c: Setup, s: State) {
    exists bases: map<Id, D.Base>, now: int, steps: seq<Step> :: s == Exec(c, Init(bases, now), steps)
  }

  // ---------------------------------------------------------------------------
  // The invariant
  // ---------------------------------------------------------------------------

  /**
   The stored vectors are those of all chunks of the version that was the document's current one at
   that time: each has its own, and no other chunk was touched.
   */
  ghost predicate EntryOk(e: Entry) {
    && |e.vectors| == |e.source.pieces|
    && e.source.head.document in e.before.documents
    && e.before.documents[e.source.head.document].current == Some(e.source.head.version)
    && D.Lists(e.before.chunks, e.source.head, e.source.pieces)
    && D.AreEmbedded(e.before.chunks, e.after.chunks, e.source, e.vectors, |e.vectors|)
  }

  /** Vectors were stored for the job, and for its document. */
  ghost predicate WasStored(s: State, j: Id) {
    exists n :: 0 <= n < |s.log| && s.log[n].job == j && EntryOk(s.log[n])
                && j in s.jobs.jobs && s.log[n].source.head.document == s.jobs.jobs[j].document
  }

  ghost predicate ProgressOk(s: State, w: Id)
    requires w in s.progress
  {
    && J.Holds(s.jobs, w)
    && match s.progress[w]
       case Taken => true
       case Seen(head) => head in s.docs.heads && head.document == DocumentOf(s, w)
       case Read(source) => source in s.docs.sources && source.head.document == DocumentOf(s, w)
       case Stored(source, _) => WasStored(s, s.jobs.held[w].job)
  }

  ghost predicate JobOk(s: State, j: Id)
    requires j in s.jobs.jobs
  {
    s.jobs.jobs[j].status == J.Succeeded ==> WasStored(s, j)
  }

  datatype Part = DocumentsPart | ProgressPart | JobsPart

  ghost predicate PartOk(s: State, part: Part) {
    match part
    case DocumentsPart => D.Inv(s.docs)
    case ProgressPart => forall w :: w in s.progress ==> ProgressOk(s, w)
    case JobsPart => forall j :: j in s.jobs.jobs ==> JobOk(s, j)
  }

  ghost predicate Inv(s: State) {
    forall part :: PartOk(s, part)
  }

  lemma InvMeans(s: State)
    requires Inv(s)
    ensures D.Inv(s.docs)
    ensures forall w :: w in s.progress ==> ProgressOk(s, w)
    ensures forall j :: j in s.jobs.jobs ==> JobOk(s, j)
  {
    assert PartOk(s, DocumentsPart) && PartOk(s, ProgressPart) && PartOk(s, JobsPart);
  }

  /** What no step takes back. */
  ghost predicate Grows(s: State, t: State) {
    && s.log <= t.log && s.docs.heads <= t.docs.heads && s.docs.sources <= t.docs.sources
    && (forall j :: j in s.jobs.jobs ==> j in t.jobs.jobs && t.jobs.jobs[j].document == s.jobs.jobs[j].document)
  }

  lemma StoredStays(s: State, t: State, j: Id)
    requires Grows(s, t) && WasStored(s, j)
    ensures WasStored(t, j)
  {
    var n :| 0 <= n < |s.log| && s.log[n].job == j && EntryOk(s.log[n])
             && j in s.jobs.jobs && s.log[n].source.head.document == s.jobs.jobs[j].document;
    assert t.log[n] == s.log[n];
  }

  lemma ProgressStays(s: State, t: State, w: Id)
    requires Grows(s, t) && w in s.progress && ProgressOk(s, w)
    requires w in t.progress && t.progress[w] == s.progress[w]
    requires w in t.jobs.held && t.jobs.held[w].job == s.jobs.held[w].job
    ensures ProgressOk(t, w)
  {
    if s.progress[w].Stored? { StoredStays(s, t, s.jobs.held[w].job); }
  }

  /** A step that affects at most worker `w`, and the job `j`. */
  lemma StepKeeps(s: State, t: State, w: Id, j: Id)
    requires Inv(s) && Grows(s, t) && D.Inv(t.docs)
    requires forall v :: v in t.progress && v != w ==>
               v in s.progress && t.progress[v] == s.progress[v] && v in t.jobs.held && v in s.jobs.held
                 && t.jobs.held[v].job == s.jobs.held[v].job
    requires w in t.progress ==> ProgressOk(t, w)
    requires forall i :: i in t.jobs.jobs && i != j ==>
               t.jobs.jobs[i].status != J.Succeeded || (i in s.jobs.jobs && s.jobs.jobs[i].status == J.Succeeded)
    requires j in t.jobs.jobs ==> JobOk(t, j)
    ensures Inv(t)
  {
    InvMeans(s);
    forall v | v in t.progress ensures ProgressOk(t, v) {
      if v != w {
        assert ProgressOk(s, v);
        ProgressStays(s, t, v);
      }
    }
    forall i | i in t.jobs.jobs ensures JobOk(t, i) {
      if i != j && t.jobs.jobs[i].status == J.Succeeded {
        assert JobOk(s, i);
        StoredStays(s, t, i);
      }
    }
  }

  // ---------------------------------------------------------------------------
  // Every step keeps it
  // ---------------------------------------------------------------------------

  lemma QueueGrows(c: Setup, s: State, step: J.Step)
    ensures Grows(s, QueueStep(c, s, step))
  {
  }

  lemma QueueKeeps(c: Setup, s: State, step: J.Step)
    requires Inv(s) && (step.Enqueue? || step.Tick? || step.Crash? || step.Stage?)
    ensures Inv(QueueStep(c, s, step))
  {
    InvMeans(s);
    var t := QueueStep(c, s, step);
    QueueGrows(c, s, step);
    assert forall v :: v in s.progress ==> ProgressOk(s, v);
    forall v | v in t.progress ensures ProgressOk(t, v) {
      ProgressStays(s, t, v);
    }
    forall i | i in t.jobs.jobs ensures JobOk(t, i) {
      if t.jobs.jobs[i].status == J.Succeeded {
        assert JobOk(s, i);
        StoredStays(s, t, i);
      }
    }
  }

  lemma ClaimKeeps(c: Setup, s: State, w: Id, j: Id)
    requires Inv(s)
    ensures Inv(QueueStep(c, s, J.Claim(w, j)))
  {
    InvMeans(s);
    var t := QueueStep(c, s, J.Claim(w, j));
    QueueGrows(c, s, J.Claim(w, j));
    forall v | v in s.progress ensures v in t.jobs.held && t.jobs.held[v].job == s.jobs.held[v].job {
      assert ProgressOk(s, v);
    }
    if t != s { StepKeeps(s, t, w, j); }
  }

  lemma OtherKeeps(c: Setup, s: State, d: D.Step)
    requires Inv(s)
    ensures Inv(s.(docs := D.Do(c.dimension, s.docs, d)))
  {
    InvMeans(s);
    var t := s.(docs := D.Do(c.dimension, s.docs, d));
    D.StepKeepsInv(c.dimension, s.docs, d);
    assert Grows(s, t);
    forall v | v in t.progress ensures ProgressOk(t, v) {
      assert ProgressOk(s, v);
      ProgressStays(s, t, v);
    }
    forall i | i in t.jobs.jobs ensures JobOk(t, i) {
      assert JobOk(s, i);
      if t.jobs.jobs[i].status == J.Succeeded { StoredStays(s, t, i); }
    }
  }

  lemma ReadHeadKeeps(c: Setup, s: State, w: Id)
    requires Inv(s)
    ensures Inv(Do(c, s, ReadHead(w)))
  {
    InvMeans(s);
    var t := Do(c, s, ReadHead(w));
    if t != s {
      D.StepKeepsInv(c.dimension, s.docs, D.HeadStep(DocumentOf(s, w)));
      AllHold(s);
      StepKeeps(s, t, w, s.jobs.held[w].job);
    }
  }

  lemma AllHold(s: State)
    requires Inv(s)
    ensures forall v :: v in s.progress ==> J.Holds(s.jobs, v)
    ensures forall i :: i in s.jobs.jobs ==> JobOk(s, i)
  {
    InvMeans(s);
    forall v | v in s.progress ensures J.Holds(s.jobs, v) { assert ProgressOk(s, v); }
  }

  lemma ReadChunksKeeps(c: Setup, s: State, w: Id, pieces: seq<D.Piece>)
    requires Inv(s)
    ensures Inv(Do(c, s, ReadChunks(w, pieces)))
  {
    InvMeans(s);
    var t := Do(c, s, ReadChunks(w, pieces));
    if t != s {
      assert ProgressOk(s, w);
      D.StepKeepsInv(c.dimension, s.docs, D.ChunksStep(D.Source(s.progress[w].head, pieces)));
      AllHold(s);
      StepKeeps(s, t, w, s.jobs.held[w].job);
    }
  }

  lemma AppliedEntryIsOk(dimension: nat, e: Entry)
    requires D.ChunksOk(e.before) && D.HeadOk(e.before, e.source.head)
    requires D.Lists(e.before.chunks, e.source.head, e.source.pieces)
    requires D.Apply(e.before, dimension, e.source, e.vectors) == D.Outcome(e.after, Success(()))
    ensures EntryOk(e)
  {
    D.AppliedToEach(e.before, dimension, e.source, e.vectors);
  }

  /** Storing the vectors of a source that was read makes a proper entry. */
  lemma EntryIsOk(dimension: nat, docs: D.State, e: Entry)
    requires D.Inv(docs) && e.source in docs.sources && e.before == docs.db
    requires D.Apply(e.before, dimension, e.source, e.vectors) == D.Outcome(e.after, Success(()))
    ensures EntryOk(e)
  {
    D.Parts(e.before);
    AppliedEntryIsOk(dimension, e);
  }

  lemma StoreKeeps(c: Setup, s: State, w: Id, vectors: seq<Vector>)
    requires Inv(s)
    ensures Inv(Do(c, s, Store(w, vectors)))
  {
    InvMeans(s);
    var t := Do(c, s, Store(w, vectors));
    if t != s {
      AllHold(s);
      StoreIsLogged(c, s, w, vectors, t);
      D.StepKeepsInv(c.dimension, s.docs, D.ApplyStep(s.progress[w].source, vectors));
      StepKeeps(s, t, w, s.jobs.held[w].job);
    }
  }

  lemma StoreIsLogged(c: Setup, s: State, w: Id, vectors: seq<Vector>, t: State)
    requires Inv(s) && t == Do(c, s, Store(w, vectors)) && t != s
    ensures J.Holds(s.jobs, w) && WasStored(t, s.jobs.held[w].job) && Grows(s, t)
  {
    InvMeans(s);
    assert ProgressOk(s, w);
    EntryIsOk(c.dimension, s.docs, t.log[|s.log|]);
    assert t.log[|s.log|].job == s.jobs.held[w].job;
  }

  lemma ReportKeeps(c: Setup, s: State, step: Step)
    requires Inv(s) && (step.Finish? || step.GiveUp?)
    ensures Inv(Do(c, s, step))
  {
    InvMeans(s);
    var t := Do(c, s, step);
    if Holds(s, step.w) && t != s {
      AllHold(s);
      ReportIsJustified(c, s, step, t);
      StepKeeps(s, t, step.w, s.jobs.held[step.w].job);
    }
  }

  lemma ReportIsJustified(c: Setup, s: State, step: Step, t: State)
    requires Inv(s) && (step.Finish? || step.GiveUp?) && t == Do(c, s, step) && Holds(s, step.w) && t != s
    ensures Grows(s, t) && s.jobs.held[step.w].job in t.jobs.jobs && JobOk(t, s.jobs.held[step.w].job)
  {
    InvMeans(s);
    assert ProgressOk(s, step.w);
    if step.Finish? { StoredStays(s, t, s.jobs.held[step.w].job); }
  }

  lemma QueueStepKeeps(c: Setup, s: State, q: J.Step)
    requires Inv(s)
    ensures Inv(QueueStep(c, s, q))
  {
    match q
    case Claim(w, j) => ClaimKeeps(c, s, w, j);
    case Complete(_) =>
    case Fail(_, _) =>
    case _ => QueueKeeps(c, s, q);
  }

  lemma StepKeepsInv(c: Setup, s: State, step: Step)
    requires Inv(s)
    ensures Inv(Do(c, s, step))
  {
    match step
    case Other(d) => OtherKeeps(c, s, d);
    case Queue(q) => QueueStepKeeps(c, s, q);
    case ReadHead(w) => ReadHeadKeeps(c, s, w);
    case ReadChunks(w, pieces) => ReadChunksKeeps(c, s, w, pieces);
    case Store(w, vectors) => StoreKeeps(c, s, w, vectors);
    case _ => ReportKeeps(c, s, step);
  }

  lemma {:induction false} RunKeepsInv(c: Setup, s: State, steps: seq<Step>)
    requires Inv(s)
    ensures Inv(Exec(c, s, steps))
    decreases |steps|
  {
    if steps != [] {
      StepKeepsInv(c, s, steps[0]);
      RunKeepsInv(c, Do(c, s, steps[0]), steps[1..]);
    }
  }

  /**
   Under any interleaving, with lapsed leases, crashes, retries and uploads: a job that SUCCEEDED had
   vectors stored for all chunks of the version that was its document's current one at that time, each
   chunk its own, by a worker that held the job.
   */
  lemma SucceededMeansStored(c: Setup, s: State, j: Id)
    requires Reachable(c, s) && j in s.jobs.jobs && s.jobs.jobs[j].status == J.Succeeded
    ensures WasStored(s, j)
  {
    var bases: map<Id, D.Base>, now: int, steps: seq<Step> :| s == Exec(c, Init(bases, now), steps);
    D.Whole(D.Init(bases).db);
    RunKeepsInv(c, Init(bases, now), steps);
    InvMeans(s);
    assert JobOk(s, j);
  }
}

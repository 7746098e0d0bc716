/**
 The worker that re-embeds a document: it takes a job, reads the chunks of the document, asks the
 embedding service for their vectors in batches, and stores them if the document still has the
 version that it read. Here one run of the worker goes through without anything in between; what
 other workers and uploads can do between its steps is in `ReindexJobs` and `Documents`.
 */
module ReindexWorker {
  import opened Wrappers
  import opened RowIds
  import D = Documents
  import J = ReindexJobs

  type Vector = D.Vector

  /** How the embedding service fails: it is unavailable, or anything else happens. */
  datatype Problem = Unavailable | Unexpected

  /** The service. What it answers may differ from call to call. */
  type Service = (nat, seq<string>) -> Result<seq<Vector>, Problem>

  datatype Settings = Settings(dimension: nat, batchSize: nat)

  // ---------------------------------------------------------------------------
  // _build_embeddings
  // ---------------------------------------------------------------------------

  function Min(a: nat, b: nat): nat {
    if a < b then a else b
  }

  predicate FitsBatch(batch: seq<Vector>, n: nat, dimension: nat) {
    |batch| == n && forall i :: 0 <= i < |batch| ==> |batch[i]| == dimension
  }

  function Prepended(vectors: seq<Vector>, r: Result<seq<Vector>, Problem>): Result<seq<Vector>, Problem> {
    match r
    case Success(more) => Success(vectors + more)
    case Failure(problem) => Failure(problem)
  }

  /** The vectors of the texts from `start` on, where `call` is the number of calls made so far. */
  function Built(s: Settings, service: Service, texts: seq<string>, start: nat, call: nat): Result<seq<Vector>, Problem>
    requires s.batchSize > 0
    decreases |texts| - start
  {
    if start >= |texts| then Success([])
    else
      var end := Min(start + s.batchSize, |texts|);
      match service(call, texts[start..end])
      case Failure(problem) => Failure(problem)
      case Success(batch) =>
        if FitsBatch(batch, end - start, s.dimension) then Prepended(batch, Built(s, service, texts, end, call + 1))
        else Failure(Unavailable)
  }

  /** One more batch. */
  lemma BuiltStep(s: Settings, service: Service, texts: seq<string>, result: seq<Vector>, start: nat, call: nat)
    requires s.batchSize > 0 && start < |texts|
    ensures var end := Min(start + s.batchSize, |texts|);
            var answer := service(call, texts[start..end]);
            Prepended(result, Built(s, service, texts, start, call))
            == if answer.Success? && FitsBatch(answer.value, end - start, s.dimension)
               then Prepended(result + answer.value, Built(s, service, texts, end, call + 1))
               else Failure(if answer.Failure? then answer.error else Unavailable)
  {
    var end := Min(start + s.batchSize, |texts|);
    var answer := service(call, texts[start..end]);
    if answer.Success? && FitsBatch(answer.value, end - start, s.dimension) {
      PrependedTwice(result, answer.value, Built(s, service, texts, end, call + 1));
    }
  }

  lemma PrependedTwice(a: seq<Vector>, b: seq<Vector>, r: Result<seq<Vector>, Problem>)
    ensures Prepended(a, Prepended(b, r)) == Prepended(a + b, r)
  {
    if r.Success? { assert a + (b + r.value) == (a + b) + r.value; }
  }

  /** Every vector has the right size, and there is one for each text. */
  lemma {:induction false} OneVectorEach(s: Settings, service: Service, texts: seq<string>, start: nat, call: nat)
    requires s.batchSize > 0 && start <= |texts| && Built(s, service, texts, start, call).Success?
    ensures FitsBatch(Built(s, service, texts, start, call).value, |texts| - start, s.dimension)
    decreases |texts| - start
  {
    if start < |texts| {
      OneVectorEach(s, service, texts, Min(start + s.batchSize, |texts|), call + 1);
    }
  }

  /** The service computes each vector from the one text alone. */
  ghost predicate IsPointwise(service: Service, f: string -> Vector) {
    forall call, texts :: service(call, texts) == Success(Each(f, texts))
  }

  function Each(f: string -> Vector, texts: seq<string>): (r: seq<Vector>)
    ensures |r| == |texts| && forall i :: 0 <= i < |texts| ==> r[i] == f(texts[i])
  {
    seq(|texts|, i requires 0 <= i < |texts| => f(texts[i]))
  }

  lemma BuiltOne(s: Settings, service: Service, texts: seq<string>, start: nat, call: nat, batch: seq<Vector>)
    requires s.batchSize > 0 && start < |texts|
    requires service(call, texts[start..Min(start + s.batchSize, |texts|)]) == Success(batch)
    ensures var end := Min(start + s.batchSize, |texts|);
            Built(s, service, texts, start, call)
            == if FitsBatch(batch, end - start, s.dimension)
              then Prepended(batch, Built(s, service, texts, end, call + 1))
               else Failure(Unavailable)
  {
  }

  ghost predicate AllFit(f: string -> Vector, texts: seq<string>, start: nat, dimension: nat) {
    forall i :: start <= i < |texts| ==> |f(texts[i])| == dimension
  }

  lemma OneBatch(f: string -> Vector, texts: seq<string>, start: nat, end: nat, dimension: nat)
    requires start <= end <= |texts|
    ensures var batch := Each(f, texts[start..end]);
            && batch + Each(f, texts[end..]) == Each(f, texts[start..])
            && (FitsBatch(batch, end - start, dimension) && AllFit(f, texts, end, dimension)
                <==> AllFit(f, texts, start, dimension))
  {
    var batch := Each(f, texts[start..end]);
    assert forall i :: start <= i < end ==> f(texts[i]) == batch[i - start];
  }

  /**
   With such a service the batches do not matter: the result is that of embedding each text alone,
   if all these vectors have the right size, and otherwise there is none.
   */
  lemma {:induction false} BatchesDoNotMatter(s: Settings, service: Service, f: string -> Vector, texts: seq<string>,
                                              start: nat, call: nat)
    requires s.batchSize > 0 && start <= |texts| && IsPointwise(service, f)
    ensures Built(s, service, texts, start, call)
         == if AllFit(f, texts, start, s.dimension) then Success(Each(f, texts[start..])) else Failure(Unavailable)
    decreases |texts| - start
  {
    if start < |texts| {
      var end := Min(start + s.batchSize, |texts|);
      var batch := Each(f, texts[start..end]);
      assert service(call, texts[start..end]) == Success(batch);
      BatchesDoNotMatter(s, service, f, texts, end, call + 1);
      OneBatch(f, texts, start, end, s.dimension);
      BuiltOne(s, service, texts, start, call, batch);
    } else {
      assert Each(f, texts[start..]) == [];
    }
  }

  // ---------------------------------------------------------------------------
  // run_once
  // ---------------------------------------------------------------------------

  /** Steps that the worker `w` takes between its claim and the outcome. */
  ghost predicate Waiting(w: Id, steps: seq<J.Step>) {
    forall i :: 0 <= i < |steps| ==> steps[i] == J.Stage(w) || steps[i].Tick?
  }

  /** `w` has the job `j`. */
  ghost predicate Has(st: J.State, w: Id, j: Id, attempt: nat) {
    w in st.held && st.held[w].job == j && st.held[w].attempt == attempt && j in st.jobs
  }

  function Texts(pieces: seq<D.Piece>): seq<string> {
    seq(|pieces|, i requires 0 <= i < |pieces| => pieces[i].content)
  }

  /** The reason that `run_once` gives for an error of the repository. */
  function ReasonOf(error: D.Error): J.Reason {
    if error == D.ResourceNotFound || error == D.InvalidRequest then J.Invalid else J.Error
  }

  /** The vectors that a run gets for a list of chunks, or why it fails. */
  function VectorsFor(s: Settings, enabled: bool, service: Service, pieces: seq<D.Piece>): Result<seq<Vector>, J.Reason>
    requires s.batchSize > 0
  {
    if !enabled then Failure(J.Error)
    else if pieces == [] then Failure(J.Invalid)
    else match Built(s, service, Texts(pieces), 0, 0)
         case Success(vectors) => Success(vectors)
         case Failure(_) => Failure(J.Error)
  }

  /** With a pointwise service that is on, the vectors are those of the chunks, one by one, if they all fit. */
  lemma VectorsForEach(s: Settings, enabled: bool, service: Service, f: string -> Vector, pieces: seq<D.Piece>)
    requires s.batchSize > 0 && IsPointwise(service, f)
    ensures var r := VectorsFor(s, enabled, service, pieces);
            && (r.Success? <==>
                  && enabled && pieces != []
                  && forall i :: 0 <= i < |pieces| ==> |f(pieces[i].content)| == s.dimension)
            && (r.Success? ==>
                  && |r.value| == |pieces|
                  && forall i :: 0 <= i < |pieces| ==> r.value[i] == f(pieces[i].content))
            && (r == Failure(J.Invalid) <==> enabled && pieces == [])
  {
    var texts := Texts(pieces);
    BatchesDoNotMatter(s, service, f, texts, 0, 0);
    assert texts[0..] == texts;
    if enabled && pieces != [] {
      assert forall i :: 0 <= i < |pieces| ==> texts[i] == pieces[i].content;
    }
  }

  class Worker {
    const id: Id
    const settings: Settings
    const enabled: bool
    const service: Service
    /** How long a call of the service takes. */
    const elapsed: nat -> nat
    const table: J.JobTable
    const documents: D.Repository

    constructor (id: Id, settings: Settings, enabled: bool, service: Service, elapsed: nat -> nat,
                 table: J.JobTable, documents: D.Repository)
      ensures this.id == id && this.settings == settings && this.enabled == enabled && this.service == service
      ensures this.table == table && this.documents == documents
    {
      this.id, this.settings, this.enabled, this.service, this.elapsed := id, settings, enabled, service, elapsed;
      this.table, this.documents := table, documents;
    }

    /** The calls of the service, without what is reported in between. */
    method NextBatch(texts: seq<string>, start: nat, call: nat, ghost result: seq<Vector>)
      returns (answer: Result<seq<Vector>, Problem>)
      requires start < |texts| && settings.batchSize > 0
      ensures Prepended(result, Built(settings, service, texts, start, call))
           == if answer.Success?
              then Prepended(result + answer.value,
                             Built(settings, service, texts, Min(start + settings.batchSize, |texts|), call + 1))
              else Failure(answer.error)
    {
      var end := Min(start + settings.batchSize, |texts|);
      answer := service(call, texts[start..end]);
      if answer.Success? && !FitsBatch(answer.value, end - start, settings.dimension) {
        answer := Failure(Unavailable);
      }
      BuiltStep(settings, service, texts, result, start, call);
    }

    method Report(j: Id, attempt: nat, ghost before: J.State, ghost steps: seq<J.Step>)
      returns (ghost steps': seq<J.Step>)
      requires Waiting(id, steps) && table.St() == J.Exec(table.config, before, steps)
      requires Has(table.St(), id, j, attempt)
      modifies table
      ensures Waiting(id, steps') && table.St() == J.Exec(table.config, before, steps')
      ensures Has(table.St(), id, j, attempt)
    {
      table.UpdateStage(id, j);
      J.ExecLast(table.config, before, steps, J.Stage(id));
      steps' := steps + [J.Stage(id)];
    }

    method Wait(seconds: nat, j: Id, attempt: nat, ghost before: J.State, ghost steps: seq<J.Step>)
      returns (ghost steps': seq<J.Step>)
      requires Waiting(id, steps) && table.St() == J.Exec(table.config, before, steps)
      requires Has(table.St(), id, j, attempt)
      modifies table
      ensures Waiting(id, steps') && table.St() == J.Exec(table.config, before, steps')
      ensures Has(table.St(), id, j, attempt)
    {
      table.Pass(seconds);
      J.ExecLast(table.config, before, steps, J.Tick(seconds));
      steps' := steps + [J.Tick(seconds)];
    }

    method BuildEmbeddings(j: Id, pieces: seq<D.Piece>, attempt: nat)
      returns (r: Result<seq<Vector>, J.Reason>, ghost steps: seq<J.Step>)
      requires settings.batchSize > 0 && Has(table.St(), id, j, attempt)
      modifies table
      ensures r == VectorsFor(settings, enabled, service, pieces)
      ensures Waiting(id, steps) && table.St() == J.Exec(table.config, old(table.St()), steps)
      ensures Has(table.St(), id, j, attempt)
    {
      steps := [];
      if !enabled {
        return Failure(J.Error), steps;
      }
      if pieces == [] {
        return Failure(J.Invalid), steps;
      }
      ghost var before := table.St();
      var texts := Texts(pieces);
      var result: seq<Vector> := [];
      var start, call := 0, 0;
      PrependedNothing(Built(settings, service, texts, 0, 0));
      while start < |texts|
        invariant start <= |texts|
        invariant Built(settings, service, texts, 0, 0)
                  == Prepended(result, Built(settings, service, texts, start, call))
        invariant Waiting(id, steps) && table.St() == J.Exec(table.config, before, steps)
        invariant Has(table.St(), id, j, attempt)
      {
        steps := Report(j, attempt, before, steps);
        var answer := NextBatch(texts, start, call, result);
        steps := Wait(elapsed(call), j, attempt, before, steps);
        if answer.Failure? {
          return Failure(J.Error), steps;
        }
        result := result + answer.value;
        start, call := Min(start + settings.batchSize, |texts|), call + 1;
      }
      assert result + [] == result;
      steps := Report(j, attempt, before, steps);
      return Success(result), steps;
    }

    /** Reading, embedding and storing: what `run_once` does inside its `try`, up to reporting the outcome. */
    method Reindex(j: Id, document: Id, attempt: nat)
      returns (r: Result<D.Source, J.Reason>, ghost steps: seq<J.Step>)
      requires settings.batchSize > 0 && settings.dimension == documents.dimension
      requires Has(table.St(), id, j, attempt) && D.DbOk(documents.Tables())
      modifies table, documents
      ensures Waiting(id, steps) && table.St() == J.Exec(table.config, old(table.St()), steps)
      ensures Has(table.St(), id, j, attempt)
      ensures r.Success? ==>
                && IsSource(old(documents.Tables()), document, r.value)
                && Stored(settings, enabled, service, old(documents.Tables()), r.value, documents.Tables())
      ensures D.DbOk(documents.Tables()) && (r.Failure? ==> documents.Tables() == old(documents.Tables()))
      ensures r.Failure? ==> r.error == J.Error || (r.error == J.Invalid && NoSource(old(documents.Tables()), document))
      ensures r.Failure? && r.error == J.Error ==>
                exists source :: IsSource(old(documents.Tables()), document, source)
                              && VectorsFor(settings, enabled, service, source.pieces).Failure?
    {
      var read := documents.GetReindexSource(document);
      if read.Failure? {
        return Failure(ReasonOf(read.error)), [];
      }
      var source := read.value;
      var vectors;
      vectors, steps := BuildEmbeddings(j, source.pieces, attempt);
      if vectors.Failure? {
        return Failure(vectors.error), steps;
      }
      steps := Report(j, attempt, old(table.St()), steps);
      FreshSource(documents.Tables(), settings, enabled, service, document, source, vectors.value,
                  D.Apply(documents.Tables(), documents.dimension, source, vectors.value).db);
      var applied := documents.ApplyDocumentEmbeddings(source, vectors.value);
      return Success(source), steps;
    }

    /**
     One run of the worker. If there is a job to take, the steps on the table are a claim, reports,
     and one outcome: the job is complete exactly if every chunk of the document got its own vector,
     and otherwise the documents are untouched.
     */
    method RunOnce() returns (processed: bool, ghost j: Id, ghost steps: seq<J.Step>)
      requires settings.batchSize > 0 && settings.dimension == documents.dimension
      requires id !in table.held && D.DbOk(documents.Tables())
      modifies table, documents
      ensures D.DbOk(documents.Tables())
      ensures processed <==> exists k :: k in old(table.jobs) && J.IsDue(old(table.jobs)[k], old(table.now))
      ensures !processed ==> table.St() == old(table.St()) && documents.Tables() == old(documents.Tables())
      ensures processed ==>
                && j in old(table.jobs) && J.IsDue(old(table.jobs)[j], old(table.now))
                && |steps| >= 2 && steps[0] == J.Claim(id, j) && Waiting(id, steps[1..|steps| - 1])
                && table.St() == J.Exec(table.config, old(table.St()), steps)
                && HasOutcome(settings, enabled, service, old(documents.Tables()), old(table.jobs)[j].document,
                              documents.Tables(), id, steps[|steps| - 1])
    {
      ghost var before := table.St();
      var claimed := table.ClaimJob(id);
      if claimed.None? {
        return false, "", [];
      }
      var (job, row) := claimed.value;
      ghost var afterClaim := table.St();
      var r, waiting := Reindex(job, row.document, row.attempt);
      ghost var last;
      if r.Success? {
        table.CompleteJob(id, job);
        last := J.Complete(id);
      } else {
        table.FailJob(id, job, r.error, row.attempt);
        last := J.Fail(id, r.error);
      }
      J.ExecFirst(table.config, before, J.Claim(id, job), waiting);
      J.ExecLast(table.config, before, [J.Claim(id, job)] + waiting, last);
      assert ([J.Claim(id, job)] + waiting + [last])[1..|waiting| + 1] == waiting;
      return true, job, [J.Claim(id, job)] + waiting + [last];
    }
  }

  /** What the last step of a run says about the documents. */
  ghost predicate HasOutcome(s: Settings, enabled: bool, service: Service, db: D.Db, document: Id, db': D.Db, w: Id,
                             last: J.Step)
    requires s.batchSize > 0
  {
    match last
    case Complete(v) =>
      v == w && exists source :: IsSource(db, document, source) && Stored(s, enabled, service, db, source, db')
    case Fail(v, reason) =>
      && v == w && db' == db
      && (reason == J.Invalid ==> NoSource(db, document))
      && (reason == J.Error ==>
            exists source :: IsSource(db, document, source) && VectorsFor(s, enabled, service, source.pieces).Failure?)
      && reason != J.Stopped
    case _ => false
  }

  /** `source` is what a worker reads for the document. */
  ghost predicate IsSource(db: D.Db, document: Id, source: D.Source) {
    && D.ReadHead(db, document) == Success(source.head)
    && D.Lists(db.chunks, source.head, source.pieces) && source.pieces != []
  }

  /** There is nothing to re-embed: no such document, or one without a version or without chunks. */
  ghost predicate NoSource(db: D.Db, document: Id) {
    || D.ReadHead(db, document).Failure?
    || forall c :: c in db.chunks ==> !D.IsOf(db.chunks, D.ReadHead(db, document).value, c)
  }

  /** Each chunk of the source has the vector that the service gave for it, and no other chunk is different. */
  ghost predicate Stored(s: Settings, enabled: bool, service: Service, db: D.Db, source: D.Source, db': D.Db)
    requires s.batchSize > 0
  {
    var vectors := VectorsFor(s, enabled, service, source.pieces);
    vectors.Success? && StoredAs(vectors.value, db, source, db')
  }

  ghost predicate StoredAs(vectors: seq<Vector>, db: D.Db, source: D.Source, db': D.Db) {
    && |vectors| == |source.pieces|
    && D.AreEmbedded(db.chunks, db'.chunks, source, vectors, |source.pieces|)
    && db'.documents == db.documents && db'.bases == db.bases
  }

  lemma AppliedIsStored(db: D.Db, dimension: nat, source: D.Source, vectors: seq<Vector>, db': D.Db)
    requires D.CurrentOk(db) && D.ChunksOk(db) && D.HeadOk(db, source.head)
    requires D.Lists(db.chunks, source.head, source.pieces)
    requires D.Apply(db, dimension, source, vectors) == D.Outcome(db', Success(()))
    ensures StoredAs(vectors, db, source, db')
  {
    D.AppliedToEach(db, dimension, source, vectors);
  }

  lemma VectorsFit(s: Settings, enabled: bool, service: Service, pieces: seq<D.Piece>)
    requires s.batchSize > 0 && VectorsFor(s, enabled, service, pieces).Success?
    ensures FitsBatch(VectorsFor(s, enabled, service, pieces).value, |pieces|, s.dimension)
  {
    OneVectorEach(s, service, Texts(pieces), 0, 0);
  }

  lemma FreshSourceApplies(db: D.Db, dimension: nat, document: Id, source: D.Source, vectors: seq<Vector>)
    requires D.CurrentOk(db) && D.ChunksOk(db) && IsSource(db, document, source)
    requires FitsBatch(vectors, |source.pieces|, dimension)
    ensures D.Apply(db, dimension, source, vectors).result.Success?
  {
    D.AppliedExactly(db, dimension, source, vectors);
  }

  lemma FreshSourceIsStored(db: D.Db, s: Settings, enabled: bool, service: Service, document: Id, source: D.Source,
                            vectors: seq<Vector>, db': D.Db)
    requires s.batchSize > 0 && D.CurrentOk(db) && D.ChunksOk(db) && IsSource(db, document, source)
    requires VectorsFor(s, enabled, service, source.pieces) == Success(vectors)
    requires db' == D.Apply(db, s.dimension, source, vectors).db
    requires D.Apply(db, s.dimension, source, vectors).result.Success?
    ensures Stored(s, enabled, service, db, source, db')
  {
    AppliedIsStored(db, s.dimension, source, vectors, db');
  }

  lemma FreshSource(db: D.Db, s: Settings, enabled: bool, service: Service, document: Id, source: D.Source,
                    vectors: seq<Vector>, db': D.Db)
    requires s.batchSize > 0 && D.DbOk(db) && IsSource(db, document, source)
    requires VectorsFor(s, enabled, service, source.pieces) == Success(vectors)
    requires db' == D.Apply(db, s.dimension, source, vectors).db
    ensures Stored(s, enabled, service, db, source, db')
    ensures D.DbOk(db')
  {
    D.Parts(db);
    VectorsFit(s, enabled, service, source.pieces);
    FreshSourceApplies(db, s.dimension, document, source, vectors);
    FreshSourceIsStored(db, s, enabled, service, document, source, vectors, db');
    D.ApplyKeeps(db, db', s.dimension, source, vectors);
  }

  lemma PrependedNothing(r: Result<seq<Vector>, Problem>)
    ensures Prepended([], r) == r
  {
    if r.Success? { assert [] + r.value == r.value; }
  }
}

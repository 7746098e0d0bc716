/**
 Uploading a document: split the text, embed the chunks if that is possible, store the file, save the
 document, and delete the file again if saving fails.
 */
module Ingestion {
  import opened Wrappers
  import opened RowIds
  import Texts
  import Chunking
  import D = Documents
  import W = ReindexWorker

  type Vector = D.Vector
  type Service = W.Service

  const BATCH := 16

  // ---------------------------------------------------------------------------
  // _embed_in_batches
  // ---------------------------------------------------------------------------

  /** What the service answers for the batches from `start` on, one after the other. */
  function Gathered(service: Service, texts: seq<string>, start: nat, call: nat): Result<seq<Vector>, W.Problem>
    decreases |texts| - start
  {
    if start >= |texts| then Success([])
    else
      var end := W.Min(start + BATCH, |texts|);
      match service(call, texts[start..end])
      case Failure(problem) => Failure(problem)
      case Success(batch) => W.Prepended(batch, Gathered(service, texts, end, call + 1))
  }

  /** Only the number of all vectors is checked. */
  function Embedded(service: Service, texts: seq<string>): Result<seq<Vector>, W.Problem> {
    match Gathered(service, texts, 0, 0)
    case Failure(problem) => Failure(problem)
    case Success(vectors) => if |vectors| == |texts| then Success(vectors) else Failure(W.Unavailable)
  }

  lemma {:induction false} GatheredPointwise(service: Service, f: string -> Vector, texts: seq<string>, start: nat,
                                             call: nat)
    requires W.IsPointwise(service, f) && start <= |texts|
    ensures Gathered(service, texts, start, call) == Success(W.Each(f, texts[start..]))
    decreases |texts| - start
  {
    if start < |texts| {
      var end := W.Min(start + BATCH, |texts|);
      assert service(call, texts[start..end]) == Success(W.Each(f, texts[start..end]));
      GatheredPointwise(service, f, texts, end, call + 1);
      W.OneBatch(f, texts, start, end, 0);
    }
  }

  /** A service that computes each vector from the one text alone gives each chunk its own. */
  lemma EachChunkItsOwn(service: Service, f: string -> Vector, texts: seq<string>)
    requires W.IsPointwise(service, f)
    ensures Embedded(service, texts) == Success(W.Each(f, texts))
  {
    GatheredPointwise(service, f, texts, 0, 0);
    assert texts[0..] == texts;
  }

  predicate AllFit(vectors: seq<Vector>, dimension: nat) {
    forall i :: 0 <= i < |vectors| ==> |vectors[i]| == dimension
  }

  /** Every call from `start` on gives exactly one vector for each text of its batch: the check that is not made. */
  ghost predicate Full(service: Service, texts: seq<string>, start: nat, call: nat)
    decreases |texts| - start
  {
    start < |texts| ==>
      var end := W.Min(start + BATCH, |texts|);
      var answer := service(call, texts[start..end]);
      answer.Success? && |answer.value| == end - start && Full(service, texts, end, call + 1)
  }

  /** The k-th batch of the texts. */
  function BatchOf(texts: seq<string>, k: nat): seq<string>
    requires k * BATCH <= |texts|
  {
    texts[k * BATCH..W.Min((k + 1) * BATCH, |texts|)]
  }

  /** The chunks of each batch have the vectors that the service gave for that batch. */
  ghost predicate Aligned(service: Service, texts: seq<string>, vectors: seq<Vector>, from: nat)
    requires |vectors| == |texts|
  {
    forall k: nat :: from <= k && k * BATCH < |texts| ==>
      service(k, BatchOf(texts, k)) == Success(vectors[k * BATCH..W.Min((k + 1) * BATCH, |texts|)])
  }

  /** With full batches from the k-th on, each of them stands where its chunks do. */
  lemma {:induction false} FullIsAligned(service: Service, texts: seq<string>, vectors: seq<Vector>, k: nat)
    requires |vectors| == |texts| && k * BATCH <= |texts| && Full(service, texts, k * BATCH, k)
    requires Gathered(service, texts, k * BATCH, k) == Success(vectors[k * BATCH..])
    ensures Aligned(service, texts, vectors, k)
    decreases |texts| - k * BATCH
  {
    var start := k * BATCH;
    if start + BATCH < |texts| {
      FirstOfGathered(service, texts, vectors, k);
      FullIsAligned(service, texts, vectors, k + 1);
    } else if start < |texts| {
      FirstOfGathered(service, texts, vectors, k);
    }
  }

  lemma FirstOfGathered(service: Service, texts: seq<string>, vectors: seq<Vector>, k: nat)
    requires |vectors| == |texts| && k * BATCH < |texts| && Full(service, texts, k * BATCH, k)
    requires Gathered(service, texts, k * BATCH, k) == Success(vectors[k * BATCH..])
    ensures var end := W.Min((k + 1) * BATCH, |texts|);
            && service(k, BatchOf(texts, k)) == Success(vectors[k * BATCH..end])
            && Gathered(service, texts, end, k + 1) == Success(vectors[end..])
  {
    var start, end := k * BATCH, W.Min((k + 1) * BATCH, |texts|);
    var batch := service(k, texts[start..end]).value;
    var rest := Gathered(service, texts, end, k + 1).value;
    assert vectors[start..] == batch + rest;
    assert vectors[start..end] == vectors[start..][..end - start] && vectors[end..] == vectors[start..][end - start..];
  }

  lemma {:induction false} AlignedIsFull(service: Service, texts: seq<string>, vectors: seq<Vector>, k: nat)
    requires |vectors| == |texts| && k * BATCH <= |texts| && Aligned(service, texts, vectors, k)
    ensures Full(service, texts, k * BATCH, k)
    decreases |texts| - k * BATCH
  {
    var start := k * BATCH;
    if start < |texts| {
      assert service(k, BatchOf(texts, k)) == Success(vectors[start..W.Min((k + 1) * BATCH, |texts|)]);
      if start + BATCH < |texts| { AlignedIsFull(service, texts, vectors, k + 1); }
    }
  }

  /**
   Vectors that an upload accepts stand at the chunks they were computed for, in every batch, exactly
   if each call gave as many vectors as its batch has texts.
   */
  lemma AlignedExactly(service: Service, texts: seq<string>, vectors: seq<Vector>)
    requires Embedded(service, texts) == Success(vectors)
    ensures Aligned(service, texts, vectors, 0) <==> Full(service, texts, 0, 0)
  {
    assert vectors[0..] == vectors;
    if Full(service, texts, 0, 0) { FullIsAligned(service, texts, vectors, 0); }
    if Aligned(service, texts, vectors, 0) { AlignedIsFull(service, texts, vectors, 0); }
  }

  /**
   What re-embedding the same chunks makes of the same answers, when the sizes of the vectors are
   right: it has the same vectors if all batches are full, and fails otherwise.
   */
  lemma {:induction false} ReindexChecksBatches(service: Service, texts: seq<string>, dimension: nat, start: nat,
                                                call: nat)
    requires start <= |texts| && Gathered(service, texts, start, call).Success?
    requires AllFit(Gathered(service, texts, start, call).value, dimension)
    ensures W.Built(W.Settings(dimension, BATCH), service, texts, start, call)
         == if Full(service, texts, start, call) then Gathered(service, texts, start, call) else Failure(W.Unavailable)
    decreases |texts| - start
  {
    if start < |texts| {
      var end := W.Min(start + BATCH, |texts|);
      var batch := service(call, texts[start..end]).value;
      var rest := Gathered(service, texts, end, call + 1).value;
      assert forall i :: 0 <= i < |batch| ==> (batch + rest)[i] == batch[i];
      assert forall i :: 0 <= i < |rest| ==> (batch + rest)[|batch| + i] == rest[i];
      ReindexChecksBatches(service, texts, dimension, end, call + 1);
    }
  }

  // ---------------------------------------------------------------------------
  // What uploads rely on: the check of the client
  // ---------------------------------------------------------------------------

  /** Every answer has one vector for each text. */
  ghost predicate Counts(service: Service) {
    forall call, texts :: service(call, texts).Success? ==> |service(call, texts).value| == |texts|
  }

  /**
   `embed_documents` of the client, around whatever the server answers: no texts need no server, and an
   answer of another length, or with an empty vector, is a failure of the service.
   */
  function Client(server: Service): Service {
    (call: nat, texts: seq<string>) =>
      if texts == [] then Success([])
      else
        match server(call, texts)
        case Failure(problem) => Failure(problem)
        case Success(vectors) =>
          if |vectors| != |texts| || exists i :: 0 <= i < |vectors| && vectors[i] == [] then Failure(W.Unavailable)
          else Success(vectors)
  }

  lemma ClientCounts(server: Service)
    ensures Counts(Client(server))
  {
  }

  /** What a server answers properly, the client passes on. */
  lemma ClientIsTransparent(server: Service, f: string -> Vector)
    requires W.IsPointwise(server, f) && forall text :: f(text) != []
    ensures W.IsPointwise(Client(server), f)
  {
    forall call, texts ensures Client(server)(call, texts) == Success(W.Each(f, texts)) {
      assert server(call, texts) == Success(W.Each(f, texts));
    }
  }

  /** An empty vector is not passed on. */
  lemma ClientRefusesEmpty(server: Service, call: nat, texts: seq<string>, i: nat)
    requires server(call, texts).Success? && i < |server(call, texts).value| && server(call, texts).value[i] == []
    requires texts != []
    ensures Client(server)(call, texts) == Failure(W.Unavailable)
  {
  }

  lemma {:induction false} CountedIsFull(service: Service, texts: seq<string>, start: nat, call: nat)
    requires Counts(service) && start <= |texts| && Gathered(service, texts, start, call).Success?
    ensures Full(service, texts, start, call)
    decreases |texts| - start
  {
    if start < |texts| {
      var end := W.Min(start + BATCH, |texts|);
      assert |service(call, texts[start..end]).value| == |texts[start..end]|;
      CountedIsFull(service, texts, end, call + 1);
    }
  }

  /**
   Whatever the server answers, and from call to call: the vectors of an upload that comes through the
   client stand at the chunks they were computed for.
   */
  lemma UploadsAreAligned(server: Service, texts: seq<string>, vectors: seq<Vector>)
    requires Embedded(Client(server), texts) == Success(vectors)
    ensures Aligned(Client(server), texts, vectors, 0)
  {
    ClientCounts(server);
    CountedIsFull(Client(server), texts, 0, 0);
    AlignedExactly(Client(server), texts, vectors);
  }

  /**
   The loop itself does not see to it: from a service that does not count, a first batch of any wrong size
   is accepted if the second one makes up for it, and the second one then begins at another chunk.
   */
  lemma ShiftedBatchesAreAccepted(service: Service, texts: seq<string>, a: seq<Vector>, b: seq<Vector>)
    requires BATCH < |texts| <= 2 * BATCH && |a| != BATCH && |a| + |b| == |texts|
    requires service(0, texts[..BATCH]) == Success(a) && service(1, texts[BATCH..]) == Success(b)
    ensures Embedded(service, texts) == Success(a + b) && (a + b)[|a|..] == b
    ensures !Aligned(service, texts, a + b, 0) && !Counts(service)
  {
    var n := |texts|;
    assert texts[0..BATCH] == texts[..BATCH] && texts[BATCH..n] == texts[BATCH..];
    assert Gathered(service, texts, n, 2) == Success([]);
    assert b + [] == b;
    assert Gathered(service, texts, BATCH, 1) == Success(b);
    AlignedExactly(service, texts, a + b);
    assert service(0, texts[..BATCH]).Success?;
  }

  // ---------------------------------------------------------------------------
  // ingest
  // ---------------------------------------------------------------------------

  datatype Settings = Settings(chunkSize: nat, overlap: nat, maxCharacters: nat, fallback: bool)

  datatype Problem = Invalid | BadSettings | Unavailable | Unexpected | OfRepository(error: D.Error)

  /** Where a file is stored; tenant, digest and name are left out of the key. */
  datatype ObjectKey = ObjectKey(document: Id, version: Id)

  function NoVectors(n: nat): seq<Option<Vector>> {
    seq(n, _ => None)
  }

  function AllVectors(vectors: seq<Vector>): seq<Option<Vector>> {
    seq(|vectors|, i requires 0 <= i < |vectors| => Some(vectors[i]))
  }

  /** The embeddings of the chunks: all of them, or none if the service is off or may fail. */
  function EmbeddingsFor(enabled: bool, service: Service, fallback: bool, dimension: nat, chunks: seq<string>)
    : (r: Result<seq<Option<Vector>>, Problem>)
    ensures r.Success? ==> |r.value| == |chunks|
    ensures r.Success? ==> forall i :: 0 <= i < |r.value| ==> D.FitsColumn(dimension, r.value[i])
  {
    if !enabled then Success(NoVectors(|chunks|))
    else
      match Embedded(service, chunks)
      case Success(vectors) =>
        if AllFit(vectors, dimension) then Success(AllVectors(vectors))
        else if fallback then Success(NoVectors(|chunks|))
        else Failure(Unavailable)
      case Failure(problem) =>
        if problem == W.Unexpected then Failure(Unexpected)
        else if fallback then Success(NoVectors(|chunks|))
        else Failure(Unavailable)
  }

  /** The chunks of a text, if there are any. */
  ghost function ChunksOf(space: char -> bool, s: Settings, text: string): Result<seq<string>, Problem> {
    if |text| > s.maxCharacters then Failure(Invalid)
    else if s.overlap >= s.chunkSize then Failure(BadSettings)
    else
      var normalized := Chunking.Normalized(space, text);
      Chunking.WindowsWithin(normalized, s.chunkSize, s.overlap, 0);
      var chunks := Chunking.Chunks(space, normalized, Chunking.Windows(normalized, s.chunkSize, s.overlap, 0), []);
      if chunks == [] then Failure(Invalid) else Success(chunks)
  }

  /** The chunks of a text and their embeddings. */
  datatype Material = Material(chunks: seq<string>, embeddings: seq<Option<Vector>>)

  ghost function Prepared(space: char -> bool, s: Settings, enabled: bool, service: Service, dimension: nat,
                          text: string)
    : Result<Material, Problem>
  {
    var chunks :- ChunksOf(space, s, text);
    var embeddings :- EmbeddingsFor(enabled, service, s.fallback, dimension, chunks);
    Success(Material(chunks, embeddings))
  }

  /** There is a chunk exactly if there is a character that is not white space. */
  lemma ChunksOfExactly(space: char -> bool, s: Settings, text: string)
    requires Chunking.IsUsual(space)
    ensures var r := ChunksOf(space, s, text);
            var there := exists i :: 0 <= i < |text| && !space(text[i]);
            && (r.Success? <==> |text| <= s.maxCharacters && s.overlap < s.chunkSize && there)
            && (r == Failure(BadSettings) <==> |text| <= s.maxCharacters && s.overlap >= s.chunkSize)
            && (r.Failure? ==> r.error == Invalid || r.error == BadSettings)
  {
    if |text| <= s.maxCharacters && s.overlap < s.chunkSize {
      var normalized := Chunking.Normalized(space, text);
      Chunking.NormalizedHasTheWords(space, text);
      Texts.NoWordsExactly(space, text);
      Texts.NoWordsExactly(space, normalized);
      if p :| 0 <= p < |normalized| && !space(normalized[p]) {
        Chunking.EveryCharacterIsInAChunk(space, normalized, s.chunkSize, s.overlap, p);
      } else {
        Chunking.SpaceHasNoChunks(space, normalized, s.chunkSize, s.overlap);
      }
    }
  }

  /**
   The chunks have the vectors of the service, if it is on and all of them fit; or none, if it is off or may
   fail; and an unexpected error always fails.
   */
  lemma EmbeddingsExactly(enabled: bool, service: Service, fallback: bool, dimension: nat, chunks: seq<string>)
    ensures var r, e := EmbeddingsFor(enabled, service, fallback, dimension, chunks), Embedded(service, chunks);
            var good := enabled && e.Success? && forall i :: 0 <= i < |e.value| ==> |e.value[i]| == dimension;
            && (r.Success? <==> !enabled || good || (fallback && e != Failure(W.Unexpected)))
            && (r == Failure(Unexpected) <==> enabled && e == Failure(W.Unexpected))
            && (r.Failure? ==> r.error == Unexpected || r.error == Unavailable)
            && (r.Success? ==> |r.value| == |chunks|)
            && (good ==> |e.value| == |chunks| && forall i :: 0 <= i < |chunks| ==> r.value[i] == Some(e.value[i]))
            && (r.Success? && !good ==> forall i :: 0 <= i < |chunks| ==> r.value[i] == None)
  {
  }

  /** Whether storing and deleting the file succeed. */
  datatype Outcomes = Outcomes(put: bool, delete: bool)

  class Uploader {
    const space: char -> bool
    const settings: Settings
    const enabled: bool
    const service: Service
    const repository: D.Repository
    var objects: set<ObjectKey>

    constructor (space: char -> bool, settings: Settings, enabled: bool, service: Service, repository: D.Repository)
      ensures this.space == space && this.settings == settings && this.enabled == enabled && this.service == service
      ensures this.repository == repository && objects == {}
    {
      this.space, this.settings, this.enabled, this.service := space, settings, enabled, service;
      this.repository, objects := repository, {};
    }

    /** Every version has its file. */
    ghost predicate Complete()
      reads this, repository
    {
      forall v :: v in repository.versions ==> ObjectKey(repository.versions[v].document, v) in objects
    }

    method EmbedInBatches(texts: seq<string>) returns (r: Result<seq<Vector>, W.Problem>)
      ensures r == Embedded(service, texts)
    {
      var result: seq<Vector> := [];
      var start, call := 0, 0;
      W.PrependedNothing(Gathered(service, texts, 0, 0));
      while start < |texts|
        invariant start <= |texts|
        invariant Gathered(service, texts, 0, 0) == W.Prepended(result, Gathered(service, texts, start, call))
      {
        var end := W.Min(start + BATCH, |texts|);
        var answer := service(call, texts[start..end]);
        if answer.Failure? {
          return Failure(answer.error);
        }
        W.PrependedTwice(result, answer.value, Gathered(service, texts, end, call + 1));
        result := result + answer.value;
        start, call := end, call + 1;
      }
      assert result + [] == result;
      return if |result| == |texts| then Success(result) else Failure(W.Unavailable);
    }

    method Embeddings(chunks: seq<string>) returns (r: Result<seq<Option<Vector>>, Problem>)
      ensures r == EmbeddingsFor(enabled, service, settings.fallback, repository.dimension, chunks)
    {
      if !enabled {
        return Success(NoVectors(|chunks|));
      }
      var generated := EmbedInBatches(chunks);
      if generated.Success? && AllFit(generated.value, repository.dimension) {
        return Success(AllVectors(generated.value));
      }
      if generated.Failure? && generated.error == W.Unexpected {
        return Failure(Unexpected);
      }
      return if settings.fallback then Success(NoVectors(|chunks|)) else Failure(Unavailable);
    }

    method Prepare(text: string) returns (r: Result<Material, Problem>)
      ensures r == Prepared(space, settings, enabled, service, repository.dimension, text)
    {
      if |text| > settings.maxCharacters {
        return Failure(Invalid);
      }
      var split := Chunking.SplitText(space, text, settings.chunkSize, settings.overlap);
      if split.Failure? {
        return Failure(BadSettings);
      }
      if split.value == [] {
        return Failure(Invalid);
      }
      var embeddings := Embeddings(split.value);
      return if embeddings.Success? then Success(Material(split.value, embeddings.value))
             else Failure(embeddings.error);
    }

    /**
     `ingest`, for a text that is already extracted. On success the document has the chunks of the
     text as its new current version, and its file is stored. On failure the tables are as before,
     and at most the new file is left behind, if it could not be deleted. Every version keeps its file.
     */
    method Ingest(base: Id, document: Id, version: Id, text: string, ids: seq<Id>, o: Outcomes)
      returns (r: Result<nat, Problem>, material: Result<Material, Problem>)
      requires D.DbOk(repository.Tables()) && Complete()
      requires version !in repository.versions && ObjectKey(document, version) !in objects
      requires var m := Prepared(space, settings, enabled, service, repository.dimension, text);
               m.Success? ==> D.NewIds(repository.chunks,
                                       D.Upload(base, document, version, m.value.chunks, m.value.embeddings, ids))
      modifies this, repository
      ensures D.DbOk(repository.Tables()) && Complete()
      ensures material == Prepared(space, settings, enabled, service, repository.dimension, text)
      ensures r.Success? <==>
                && material.Success? && o.put && D.BaseIsOpen(old(repository.Tables()), base)
                && (document in old(repository.documents) ==> old(repository.documents)[document].base == base)
      ensures material.Failure? ==> r == Failure(material.error)
      ensures r.Failure? ==>
                && repository.Tables() == old(repository.Tables())
                && (objects == old(objects) || (!o.delete && objects == old(objects) + {ObjectKey(document, version)}))
      ensures r.Success? ==>
                && material.Success? && objects == old(objects) + {ObjectKey(document, version)}
                && repository.Tables()
                   == D.Save(old(repository.Tables()), repository.dimension,
                             D.Upload(base, document, version, material.value.chunks, material.value.embeddings,
                                      ids)).db
                && version in repository.versions && repository.versions[version].isCurrent
                && repository.versions[version].number == r.value
    {
      material := Prepare(text);
      if material.Failure? {
        return Failure(material.error), material;
      }
      if !o.put {
        return Failure(Unexpected), material;
      }
      r := Store(D.Upload(base, document, version, material.value.chunks, material.value.embeddings, ids), o.delete);
    }

    /** The end of `ingest`: the file, and then the rows. */
    method Store(u: D.Upload, delete: bool) returns (r: Result<nat, Problem>)
      requires D.DbOk(repository.Tables()) && Complete()
      requires D.NewIds(repository.chunks, u) && u.version !in repository.versions
      modifies this, repository
      ensures D.DbOk(repository.Tables()) && Complete()
      ensures (forall k :: 0 <= k < |u.embeddings| ==> D.FitsColumn(repository.dimension, u.embeddings[k])) ==>
                (r.Success? <==>
                      && D.CountsAgree(u) && D.BaseIsOpen(old(repository.Tables()), u.base)
                      && !D.BelongsElsewhere(old(repository.Tables()), u))
      ensures var saved := D.Save(old(repository.Tables()), repository.dimension, u);
              && repository.Tables() == saved.db
              && (r.Success? <==> saved.result.Success?)
              && (r.Failure? ==> saved.db == old(repository.Tables()))
              && (r.Success? ==> u.version in repository.versions && repository.versions[u.version].isCurrent
                                 && repository.versions[u.version].number == r.value)
      ensures objects == if r.Failure? && delete then old(objects) - {ObjectKey(u.document, u.version)}
                         else old(objects) + {ObjectKey(u.document, u.version)}
    {
      var key := ObjectKey(u.document, u.version);
      objects := objects + {key};
      D.SavedExactly(repository.Tables(), repository.dimension, u);
      D.SaveKeeps(repository.Tables(), D.Save(repository.Tables(), repository.dimension, u).db, repository.dimension,
                  u);
      var saved := repository.SaveDocument(u);
      if saved.Failure? {
        if delete {
          objects := objects - {key};
        }
        return Failure(OfRepository(saved.error));
      }
      return Success(saved.value.0);
    }
  }
}

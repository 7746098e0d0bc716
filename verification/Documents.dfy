/**
 Documents, their versions and the chunks of each version, as the three tables that `save_document`,
 `set_document_active` and `apply_document_embeddings` keep consistent. Every operation is one
 transaction on one tenant's rows. Reading the source of a re-embedding is two separate reads, so
 other transactions may come between them and before the vectors are applied.
 */
module Documents {
  import opened Wrappers
  import opened RowIds

  type Vector = seq<real>

  /** `READY` and `DISABLED` are what the operations leave behind, the last two are marks of a deletion under way. */
  datatype Status = Indexing | Ready | Disabled | Deleting | Deleted

  datatype Base = Base(enabled: bool, index: string)
  datatype Document = Document(base: Id, status: Status, current: Option<Id>)
  datatype Version = Version(document: Id, number: nat, index: string, isCurrent: bool)
  datatype Chunk = Chunk(base: Id, document: Id, version: Id, ordinal: nat, content: string,
                         index: string, active: bool, embedding: Option<Vector>)

  datatype Db = Db(bases: map<Id, Base>, documents: map<Id, Document>,
                   versions: map<Id, Version>, chunks: map<Id, Chunk>)

  datatype Error = ResourceNotFound | InvalidRequest | ValueError | RuntimeError | DatabaseError

  datatype Outcome<T> = Outcome(db: Db, result: Result<T, Error>)

  // ---------------------------------------------------------------------------
  // save_document
  // ---------------------------------------------------------------------------

  ghost predicate IsMax(versions: map<Id, Version>, document: Id, n: nat) {
    && (forall v :: v in versions && versions[v].document == document ==> versions[v].number <= n)
    && (n > 0 ==> exists v :: v in versions && versions[v].document == document && versions[v].number == n)
  }

  lemma {:induction false} MaxExists(versions: map<Id, Version>, document: Id)
    ensures exists n: nat :: IsMax(versions, document, n)
    decreases |versions|
  {
    if v :| v in versions && versions[v].document == document {
      var rest := versions - {v};
      assert v !in rest && v in versions && rest.Keys == versions.Keys - {v};
      MaxExists(rest, document);
      var m: nat :| IsMax(rest, document, m);
      var n := if m < versions[v].number then versions[v].number else m;
      assert forall w :: w in versions ==> w == v || w in rest;
      if n == m && m > 0 {
        var w :| w in rest && rest[w].document == document && rest[w].number == m;
        assert w in versions && versions[w].number == m;
      }
      assert IsMax(versions, document, n);
    } else {
      assert IsMax(versions, document, 0);
    }
  }

  /** `COALESCE(max(version_number), 0)` */
  ghost function MaxNumber(versions: map<Id, Version>, document: Id): (n: nat)
    ensures IsMax(versions, document, n)
  {
    MaxExists(versions, document);
    var n: nat :| IsMax(versions, document, n);
    n
  }

  /** `UPDATE document_versions SET is_current = false` for a document. */
  function Superseded(versions: map<Id, Version>, document: Id): map<Id, Version> {
    map v | v in versions ::
      if versions[v].document == document then versions[v].(isCurrent := false) else versions[v]
  }

  /** `UPDATE chunks SET is_active = ...` for a document: the chunks of `version` become active, all others do not. */
  function Activated(chunks: map<Id, Chunk>, document: Id, version: Option<Id>): map<Id, Chunk> {
    map c | c in chunks ::
      if chunks[c].document == document then chunks[c].(active := version == Some(chunks[c].version)) else chunks[c]
  }

  datatype Upload = Upload(base: Id, document: Id, version: Id, contents: seq<string>,
                           embeddings: seq<Option<Vector>>, ids: seq<Id>)

  predicate FitsColumn(dimension: nat, embedding: Option<Vector>) {
    embedding.Some? ==> |embedding.value| == dimension
  }

  /** The row of chunk number `k + 1`. */
  function Row(u: Upload, index: string, k: nat): Chunk
    requires k < |u.contents| && k < |u.embeddings|
  {
    Chunk(u.base, u.document, u.version, k + 1, u.contents[k], index, true, u.embeddings[k])
  }

  /** The table after the first `n` rows are inserted. */
  function WithRows(chunks: map<Id, Chunk>, u: Upload, index: string, n: nat): map<Id, Chunk>
    requires n <= |u.contents| && |u.contents| == |u.embeddings| == |u.ids|
  {
    if n == 0 then chunks else WithRows(chunks, u, index, n - 1)[u.ids[n - 1] := Row(u, index, n - 1)]
  }

  /** The IDs that the database generates are new. */
  ghost predicate NewIds(chunks: map<Id, Chunk>, u: Upload) {
    && |u.ids| == |u.contents|
    && (forall i :: 0 <= i < |u.ids| ==> u.ids[i] !in chunks)
    && (forall i, j :: 0 <= i < j < |u.ids| ==> u.ids[i] != u.ids[j])
  }

  predicate Accepts(db: Db, dimension: nat, u: Upload) {
    && |u.contents| == |u.embeddings|
    && u.base in db.bases && db.bases[u.base].enabled
    && (u.document in db.documents ==> db.documents[u.document].base == u.base)
    && u.version !in db.versions
    && forall k :: 0 <= k < |u.embeddings| ==> FitsColumn(dimension, u.embeddings[k])
  }

  function Refusal(db: Db, u: Upload): Error {
    if |u.contents| != |u.embeddings| then ValueError
    else if u.base !in db.bases || !db.bases[u.base].enabled then ResourceNotFound
    else if u.document in db.documents && db.documents[u.document].base != u.base then InvalidRequest
    else DatabaseError
  }

  ghost function Save(db: Db, dimension: nat, u: Upload): Outcome<(nat, string)>
    requires |u.ids| == |u.contents|
  {
    if !Accepts(db, dimension, u) then Outcome(db, Failure(Refusal(db, u)))
    else
      var index := db.bases[u.base].index;
      var number := if u.document in db.documents then MaxNumber(db.versions, u.document) + 1 else 1;
      var versions := if u.document in db.documents then Superseded(db.versions, u.document) else db.versions;
      var chunks := if u.document in db.documents then Activated(db.chunks, u.document, None) else db.chunks;
      Outcome(
        Db(db.bases,
           db.documents[u.document := Document(u.base, Ready, Some(u.version))],
           versions[u.version := Version(u.document, number, index, true)],
           WithRows(chunks, u, index, |u.contents|)),
        Success((number, index)))
  }

  // ---------------------------------------------------------------------------
  // set_document_active
  // ---------------------------------------------------------------------------

  /** `LEFT JOIN document_versions`: the index of the current version, if there is one. */
  function CurrentIndex(db: Db, d: Document): Option<string> {
    if d.current.Some? && d.current.value in db.versions then Some(db.versions[d.current.value].index) else None
  }

  function SetActive(db: Db, document: Id, active: bool): Outcome<Status> {
    if document !in db.documents || db.documents[document].base !in db.bases then Outcome(db, Failure(ResourceNotFound))
    else
      var d := db.documents[document];
      if d.status == Deleted then Outcome(db, Failure(ResourceNotFound))
      else if active && d.current.None? then Outcome(db, Failure(InvalidRequest))
      else if active && CurrentIndex(db, d) != Some(db.bases[d.base].index) then Outcome(db, Failure(InvalidRequest))
      else
        var status := if active then Ready else Disabled;
        Outcome(
          db.(chunks := Activated(db.chunks, document, if active then d.current else None),
              documents := db.documents[document := d.(status := status)]),
          Success(status))
  }

  // ---------------------------------------------------------------------------
  // get_reindex_source
  // ---------------------------------------------------------------------------

  datatype Head = Head(document: Id, version: Id, index: string)
  datatype Piece = Piece(id: Id, content: string)
  datatype Source = Source(head: Head, pieces: seq<Piece>)

  predicate IsLive(d: Document) {
    d.status != Deleting && d.status != Deleted
  }

  /** The first read. */
  function ReadHead(db: Db, document: Id): Result<Head, Error> {
    if document !in db.documents || !IsLive(db.documents[document]) || db.documents[document].base !in db.bases
    then Failure(ResourceNotFound)
    else
      var d := db.documents[document];
      if d.current.None? then Failure(InvalidRequest)
      else Success(Head(document, d.current.value, db.bases[d.base].index))
  }

  predicate IsOf(chunks: map<Id, Chunk>, head: Head, id: Id) {
    id in chunks && chunks[id].document == head.document && chunks[id].version == head.version
  }

  /** `pieces` is what the second read returns: the chunks of the version, by ordinal. */
  ghost predicate Lists(chunks: map<Id, Chunk>, head: Head, pieces: seq<Piece>) {
    && (forall i :: 0 <= i < |pieces| ==>
          IsOf(chunks, head, pieces[i].id) && pieces[i].content == chunks[pieces[i].id].content)
    && (forall i, j :: 0 <= i < j < |pieces| ==>
          pieces[i].id != pieces[j].id && chunks[pieces[i].id].ordinal <= chunks[pieces[j].id].ordinal)
    && (forall id :: IsOf(chunks, head, id) ==> exists i :: 0 <= i < |pieces| && pieces[i].id == id)
  }

  // ---------------------------------------------------------------------------
  // apply_document_embeddings
  // ---------------------------------------------------------------------------

  /** One `UPDATE chunks` of `executemany`. */
  function Embedded(chunks: map<Id, Chunk>, head: Head, id: Id, vector: Vector): map<Id, Chunk> {
    if id in chunks && chunks[id].version == head.version
    then chunks[id := chunks[id].(embedding := Some(vector), index := head.index)]
    else chunks
  }

  function EmbeddedAll(chunks: map<Id, Chunk>, s: Source, vectors: seq<Vector>, n: nat): map<Id, Chunk>
    requires n <= |s.pieces| && |s.pieces| == |vectors|
  {
    if n == 0 then chunks
    else Embedded(EmbeddedAll(chunks, s, vectors, n - 1), s.head, s.pieces[n - 1].id, vectors[n - 1])
  }

  /** The rows that the final count selects. */
  function Counted(chunks: map<Id, Chunk>, head: Head): set<Id> {
    set id |
      id in chunks && chunks[id].version == head.version && chunks[id].embedding.Some? && chunks[id].index == head.index
  }

  function Apply(db: Db, dimension: nat, s: Source, vectors: seq<Vector>): Outcome<()> {
    if |s.pieces| != |vectors| then Outcome(db, Failure(ValueError))
    else if s.head.document !in db.documents || !IsLive(db.documents[s.head.document])
            || db.documents[s.head.document].current.None? then Outcome(db, Failure(ResourceNotFound))
    else if db.documents[s.head.document].current != Some(s.head.version) then Outcome(db, Failure(InvalidRequest))
    else if exists i :: 0 <= i < |vectors| && |vectors[i]| != dimension then Outcome(db, Failure(DatabaseError))
    else
      var chunks := EmbeddedAll(db.chunks, s, vectors, |vectors|);
      if |Counted(chunks, s.head)| != |s.pieces| then Outcome(db, Failure(RuntimeError))
      else
        var v := s.head.version;
        var versions := if v in db.versions then db.versions[v := db.versions[v].(index := s.head.index)]
                        else db.versions;
        Outcome(db.(chunks := chunks, versions := versions), Success(()))
  }

  // ---------------------------------------------------------------------------
  // Runs
  // ---------------------------------------------------------------------------

  /** The tables, and everything that any worker has read so far and may still act on. */
  datatype State = State(db: Db, heads: set<Head>, sources: set<Source>)

  datatype Step =
    | SaveStep(upload: Upload)
    | ActiveStep(document: Id, active: bool)
    | HeadStep(document: Id)
    | ChunksStep(source: Source)
    | ApplyStep(source: Source, vectors: seq<Vector>)
    | BaseStep(base: Id, row: Base)
    | DeleteStep(document: Id, done: bool)

  /** The state after a step. A step that cannot be taken changes nothing. */
  ghost function Do(dimension: nat, st: State, step: Step): State {
    match step
    case SaveStep(u) =>
      if NewIds(st.db.chunks, u) then st.(db := Save(st.db, dimension, u).db) else st
    case ActiveStep(document, active) => st.(db := SetActive(st.db, document, active).db)
    case HeadStep(document) =>
      var head := ReadHead(st.db, document);
      if head.Success? then st.(heads := st.heads + {head.value}) else st
    case ChunksStep(source) =>
      if source.head in st.heads && Lists(st.db.chunks, source.head, source.pieces) && source.pieces != []
      then st.(sources := st.sources + {source}) else st
    case ApplyStep(source, vectors) =>
      if source in st.sources then st.(db := Apply(st.db, dimension, source, vectors).db) else st
    case BaseStep(base, row) => st.(db := st.db.(bases := st.db.bases[base := row]))
    case DeleteStep(document, done) =>
      if document in st.db.documents
      then st.(db := st.db.(documents :=
        st.db.documents[document := st.db.documents[document].(status := if done then Deleted else Deleting)]))
      else st
  }

  ghost function Exec(dimension: nat, st: State, steps: seq<Step>): State
    decreases |steps|
  {
    if steps == [] then st else Exec(dimension, Do(dimension, st, steps[0]), steps[1..])
  }

  function Init(bases: map<Id, Base>): State {
    State(Db(bases, map[], map[], map[]), {}, {})
  }

  // ---------------------------------------------------------------------------
  // The invariant
  // ---------------------------------------------------------------------------

  /** Between transactions no document is being indexed, and each has one current version, the one it names. */
  ghost predicate CurrentOk(db: Db) {
    && (forall d :: d in db.documents ==>
          && db.documents[d].base in db.bases && db.documents[d].status != Indexing
          && db.documents[d].current.Some? && db.documents[d].current.value in db.versions
          && db.versions[db.documents[d].current.value].document == d
          && db.versions[db.documents[d].current.value].isCurrent)
    && (forall v :: v in db.versions ==>
          && db.versions[v].document in db.documents
          && (db.versions[v].isCurrent ==> db.documents[db.versions[v].document].current == Some(v)))
  }

  ghost predicate HasNumber(versions: map<Id, Version>, document: Id, k: nat) {
    exists v :: v in versions && versions[v].document == document && versions[v].number == k
  }

  /** The versions of a document are numbered from 1 without gaps or repetitions. */
  ghost predicate NumbersOk(versions: map<Id, Version>) {
    && (forall v :: v in versions ==> versions[v].number >= 1)
    && (forall v, k: nat :: v in versions && 1 <= k <= versions[v].number ==>
          HasNumber(versions, versions[v].document, k))
    && (forall v, w :: v in versions && w in versions && v != w && versions[v].document == versions[w].document ==>
          versions[v].number != versions[w].number)
  }

  /** The current version is the last one. */
  ghost predicate LatestOk(db: Db) {
    forall v, w :: v in db.versions && w in db.versions && db.versions[v].document == db.versions[w].document ==>
      (db.versions[w].isCurrent ==> db.versions[v].number <= db.versions[w].number)
  }

  /** A chunk belongs to a version of its document and has that version's index. */
  ghost predicate ChunksOk(db: Db) {
    && (forall c :: c in db.chunks ==>
          && db.chunks[c].document in db.documents && db.chunks[c].base == db.documents[db.chunks[c].document].base
          && db.chunks[c].version in db.versions
          && db.versions[db.chunks[c].version].document == db.chunks[c].document
          && db.versions[db.chunks[c].version].index == db.chunks[c].index)
    && (forall c, c' :: c in db.chunks && c' in db.chunks && c != c' ==>
          (db.chunks[c].version == db.chunks[c'].version ==> db.chunks[c].ordinal != db.chunks[c'].ordinal))
  }

  /** Exactly the current chunks of a ready document are active, and none of a disabled one. */
  ghost predicate ActiveOk(db: Db) {
    forall c :: c in db.chunks && db.chunks[c].document in db.documents ==>
      var d := db.documents[db.chunks[c].document];
      && (db.chunks[c].active ==> d.current == Some(db.chunks[c].version))
      && (d.status == Ready && d.current == Some(db.chunks[c].version) ==> db.chunks[c].active)
      && (d.status == Disabled ==> !db.chunks[c].active)
  }

  ghost predicate HeadOk(db: Db, head: Head) {
    head.version in db.versions && db.versions[head.version].document == head.document
  }

  datatype Part = CurrentPart | NumbersPart | LatestPart | ChunksPart | ActivePart

  ghost predicate PartOk(db: Db, part: Part) {
    match part
    case CurrentPart => CurrentOk(db)
    case NumbersPart => NumbersOk(db.versions)
    case LatestPart => LatestOk(db)
    case ChunksPart => ChunksOk(db)
    case ActivePart => ActiveOk(db)
  }

  ghost predicate DbOk(db: Db) {
    forall part :: PartOk(db, part)
  }

  lemma Parts(db: Db)
    requires DbOk(db)
    ensures CurrentOk(db) && NumbersOk(db.versions) && LatestOk(db) && ChunksOk(db) && ActiveOk(db)
  {
    assert PartOk(db, CurrentPart) && PartOk(db, NumbersPart) && PartOk(db, LatestPart);
    assert PartOk(db, ChunksPart) && PartOk(db, ActivePart);
  }

  lemma Whole(db: Db)
    requires CurrentOk(db) && NumbersOk(db.versions) && LatestOk(db) && ChunksOk(db) && ActiveOk(db)
    ensures DbOk(db)
  {
  }

  ghost predicate Inv(st: State) {
    && DbOk(st.db)
    && (forall head :: head in st.heads ==> HeadOk(st.db, head))
    && (forall s :: s in st.sources ==>
          HeadOk(st.db, s.head) && Lists(st.db.chunks, s.head, s.pieces) && s.pieces != [])
  }

  // ---------------------------------------------------------------------------
  // save_document keeps the invariant
  // ---------------------------------------------------------------------------

  /** Exactly the new rows are added. */
  lemma {:induction false} RowsAdded(chunks: map<Id, Chunk>, u: Upload, index: string, n: nat)
    requires NewIds(chunks, u) && |u.contents| == |u.embeddings| && n <= |u.contents|
    ensures var t := WithRows(chunks, u, index, n);
            && (forall c :: c in chunks ==> c in t && t[c] == chunks[c])
            && (forall k :: 0 <= k < n ==> u.ids[k] in t && t[u.ids[k]] == Row(u, index, k))
            && (forall c :: c in t ==> c in chunks || exists k :: 0 <= k < n && c == u.ids[k])
  {
    if n > 0 { RowsAdded(chunks, u, index, n - 1); }
  }

  /** The tables after an upload, without recursion: the old rows with their flags cleared, and the new rows. */
  ghost predicate Uploaded(db: Db, db': Db, u: Upload, number: nat) {
    && u.base in db.bases && db'.bases == db.bases
    && |u.contents| == |u.embeddings| == |u.ids|
    && u.version !in db.versions
    && (u.document in db.documents ==> db.documents[u.document].base == u.base)
    && db'.documents == db.documents[u.document := Document(u.base, Ready, Some(u.version))]
    && IsMax(db.versions, u.document, number)
    && db'.versions.Keys == db.versions.Keys + {u.version}
    && db'.versions[u.version] == Version(u.document, number + 1, db.bases[u.base].index, true)
    && (forall v :: v in db.versions ==>
          db'.versions[v] ==
            db.versions[v].(isCurrent := db.versions[v].isCurrent && db.versions[v].document != u.document))
    && ChunksUploaded(db.chunks, db'.chunks, u, db.bases[u.base].index)
  }

  ghost predicate ChunksUploaded(chunks: map<Id, Chunk>, chunks': map<Id, Chunk>, u: Upload, index: string)
    requires |u.contents| == |u.embeddings| == |u.ids|
  {
    && (forall c :: c in chunks ==> c in chunks')
    && (forall c :: c in chunks ==>
          chunks'[c] == chunks[c].(active := chunks[c].active && chunks[c].document != u.document))
    && (forall k :: 0 <= k < |u.ids| ==> u.ids[k] in chunks' && chunks'[u.ids[k]] == Row(u, index, k))
    && (forall c :: c in chunks' && c !in chunks ==> exists k :: 0 <= k < |u.ids| && c == u.ids[k])
  }

  lemma RowsUploaded(db: Db, u: Upload, index: string)
    requires ChunksOk(db) && NewIds(db.chunks, u) && |u.contents| == |u.embeddings|
    ensures var chunks := if u.document in db.documents then Activated(db.chunks, u.document, None) else db.chunks;
            ChunksUploaded(db.chunks, WithRows(chunks, u, index, |u.contents|), u, index)
  {
    var chunks := if u.document in db.documents then Activated(db.chunks, u.document, None) else db.chunks;
    RowsAdded(chunks, u, index, |u.contents|);
  }

  lemma VersionsUploaded(db: Db, versions: map<Id, Version>, u: Upload, number: nat, index: string)
    requires CurrentOk(db) && u.version !in db.versions
    requires var before := if u.document in db.documents then Superseded(db.versions, u.document) else db.versions;
             versions == before[u.version := Version(u.document, number + 1, index, true)]
    ensures versions.Keys == db.versions.Keys + {u.version}
    ensures forall v :: v in db.versions ==>
              versions[v] ==
                db.versions[v].(isCurrent := db.versions[v].isCurrent && db.versions[v].document != u.document)
  {
  }

  lemma FirstHasNone(db: Db, document: Id)
    requires CurrentOk(db) && document !in db.documents
    ensures IsMax(db.versions, document, 0)
  {
  }

  lemma SaveUploads(db: Db, dimension: nat, u: Upload) returns (number: nat)
    requires CurrentOk(db) && ChunksOk(db) && NewIds(db.chunks, u) && Accepts(db, dimension, u)
    ensures Uploaded(db, Save(db, dimension, u).db, u, number)
  {
    number := if u.document in db.documents then MaxNumber(db.versions, u.document) else 0;
    if u.document !in db.documents { FirstHasNone(db, u.document); }
    var index := db.bases[u.base].index;
    VersionsUploaded(db, Save(db, dimension, u).db.versions, u, number, index);
    RowsUploaded(db, u, index);
  }

  lemma UploadKeepsCurrent(db: Db, db': Db, u: Upload, number: nat)
    requires Uploaded(db, db', u, number) && CurrentOk(db)
    ensures CurrentOk(db')
  {
  }

  lemma UploadKeepsLatest(db: Db, db': Db, u: Upload, number: nat)
    requires Uploaded(db, db', u, number) && CurrentOk(db) && LatestOk(db)
    ensures LatestOk(db')
  {
    forall v, w | v in db'.versions && w in db'.versions && db'.versions[v].document == db'.versions[w].document
                  && db'.versions[w].isCurrent
      ensures db'.versions[v].number <= db'.versions[w].number
    {
      if w != u.version {
        assert db'.versions[w] == db.versions[w] && db'.versions[w].document != u.document;
        assert v in db.versions && db'.versions[v].number == db.versions[v].number;
      } else if v != u.version {
        assert v in db.versions && db.versions[v].number <= number;
      }
    }
  }

  lemma UploadKeepsNumbers(db: Db, db': Db, u: Upload, number: nat)
    requires Uploaded(db, db', u, number) && NumbersOk(db.versions)
    ensures NumbersOk(db'.versions)
  {
    forall v, k: nat | v in db'.versions && 1 <= k <= db'.versions[v].number
      ensures HasNumber(db'.versions, db'.versions[v].document, k)
    {
      if v == u.version && k == number + 1 {
      } else {
        var w := v;
        if v == u.version {
          w :| w in db.versions && db.versions[w].document == u.document && db.versions[w].number == number;
        }
        assert HasNumber(db.versions, db.versions[w].document, k);
        var x :| x in db.versions && db.versions[x].document == db.versions[w].document && db.versions[x].number == k;
        assert db'.versions[x].number == k;
      }
    }
  }

  lemma UploadKeepsChunks(db: Db, db': Db, u: Upload, number: nat)
    requires Uploaded(db, db', u, number) && CurrentOk(db) && ChunksOk(db) && NewIds(db.chunks, u)
    ensures ChunksOk(db')
  {
  }

  lemma UploadKeepsActive(db: Db, db': Db, u: Upload, number: nat)
    requires Uploaded(db, db', u, number) && ChunksOk(db) && ActiveOk(db) && NewIds(db.chunks, u)
    ensures ActiveOk(db')
  {
  }

  // ---------------------------------------------------------------------------
  // set_document_active and apply_document_embeddings keep the invariant
  // ---------------------------------------------------------------------------

  lemma SetActiveKeeps(db: Db, document: Id, active: bool)
    requires DbOk(db)
    ensures DbOk(SetActive(db, document, active).db)
  {
    Parts(db);
    SetActiveKeepsCurrent(db, document, active);
    SetActiveKeepsChunks(db, document, active);
    Whole(SetActive(db, document, active).db);
  }

  lemma SetActiveKeepsCurrent(db: Db, document: Id, active: bool)
    requires CurrentOk(db) && LatestOk(db)
    ensures CurrentOk(SetActive(db, document, active).db) && LatestOk(SetActive(db, document, active).db)
  {
  }

  lemma SetActiveKeepsChunks(db: Db, document: Id, active: bool)
    requires ChunksOk(db) && ActiveOk(db)
    ensures ChunksOk(SetActive(db, document, active).db) && ActiveOk(SetActive(db, document, active).db)
  {
  }

  /** The first `n` pieces of a source have their own vectors, and nothing else is different. */
  ghost predicate AreEmbedded(chunks: map<Id, Chunk>, chunks': map<Id, Chunk>, s: Source, vectors: seq<Vector>, n: nat)
    requires n <= |s.pieces| && |s.pieces| == |vectors|
  {
    && chunks'.Keys == chunks.Keys
    && (forall i :: 0 <= i < n ==> s.pieces[i].id in chunks)
    && (forall i :: 0 <= i < n ==>
          chunks'[s.pieces[i].id] == chunks[s.pieces[i].id].(embedding := Some(vectors[i]), index := s.head.index))
    && (forall c :: c in chunks && (forall i :: 0 <= i < n ==> s.pieces[i].id != c) ==> chunks'[c] == chunks[c])
  }

  lemma {:induction false} OthersUntouched(chunks: map<Id, Chunk>, s: Source, vectors: seq<Vector>, n: nat, c: Id)
    requires |s.pieces| == |vectors| && n <= |vectors|
    requires c in chunks && forall i :: 0 <= i < n ==> s.pieces[i].id != c
    ensures EmbeddedAll(chunks, s, vectors, n).Keys == chunks.Keys
    ensures EmbeddedAll(chunks, s, vectors, n)[c] == chunks[c]
  {
    if n > 0 { OthersUntouched(chunks, s, vectors, n - 1, c); }
  }

  lemma {:induction false} OwnVector(chunks: map<Id, Chunk>, s: Source, vectors: seq<Vector>, n: nat, i: nat)
    requires Lists(chunks, s.head, s.pieces) && |s.pieces| == |vectors| && i < n <= |vectors|
    ensures s.pieces[i].id in chunks && s.pieces[i].id in EmbeddedAll(chunks, s, vectors, n)
    ensures EmbeddedAll(chunks, s, vectors, n)[s.pieces[i].id]
         == chunks[s.pieces[i].id].(embedding := Some(vectors[i]), index := s.head.index)
  {
    var id := s.pieces[i].id;
    assert IsOf(chunks, s.head, id);
    if i == n - 1 {
      OthersUntouched(chunks, s, vectors, n - 1, id);
    } else {
      OwnVector(chunks, s, vectors, n - 1, i);
      assert s.pieces[n - 1].id != id;
    }
  }

  lemma {:induction false} SameKeys(chunks: map<Id, Chunk>, s: Source, vectors: seq<Vector>, n: nat)
    requires |s.pieces| == |vectors| && n <= |vectors|
    ensures EmbeddedAll(chunks, s, vectors, n).Keys == chunks.Keys
  {
    if n > 0 { SameKeys(chunks, s, vectors, n - 1); }
  }

  lemma EmbeddedEach(chunks: map<Id, Chunk>, s: Source, vectors: seq<Vector>, n: nat)
    requires Lists(chunks, s.head, s.pieces) && |s.pieces| == |vectors| && n <= |vectors|
    ensures AreEmbedded(chunks, EmbeddedAll(chunks, s, vectors, n), s, vectors, n)
  {
    SameKeys(chunks, s, vectors, n);
    forall i | 0 <= i < n
      ensures s.pieces[i].id in chunks
      ensures EmbeddedAll(chunks, s, vectors, n)[s.pieces[i].id]
           == chunks[s.pieces[i].id].(embedding := Some(vectors[i]), index := s.head.index)
    {
      OwnVector(chunks, s, vectors, n, i);
    }
    forall c | c in chunks && forall i :: 0 <= i < n ==> s.pieces[i].id != c
      ensures EmbeddedAll(chunks, s, vectors, n)[c] == chunks[c]
    {
      OthersUntouched(chunks, s, vectors, n, c);
    }
  }

  lemma {:induction false} AsManyAsListed(ids: set<Id>, pieces: seq<Piece>)
    requires forall i, j :: 0 <= i < j < |pieces| ==> pieces[i].id != pieces[j].id
    requires forall id :: id in ids <==> exists i :: 0 <= i < |pieces| && pieces[i].id == id
    ensures |ids| == |pieces|
    decreases |pieces|
  {
    if pieces == [] {
      assert ids == {};
    } else {
      var last := pieces[|pieces| - 1].id;
      var rest := pieces[..|pieces| - 1];
      assert last in ids;
      forall id | id in ids - {last} ensures exists i :: 0 <= i < |rest| && rest[i].id == id {
        var i :| 0 <= i < |pieces| && pieces[i].id == id;
        assert rest[i].id == id;
      }
      forall i | 0 <= i < |rest| ensures rest[i].id in ids - {last} {
        assert rest[i] == pieces[i];
      }
      AsManyAsListed(ids - {last}, rest);
    }
  }

  /** All chunks of the version are counted, and no others. */
  lemma CountIsRight(db: Db, s: Source, vectors: seq<Vector>)
    requires ChunksOk(db) && HeadOk(db, s.head) && Lists(db.chunks, s.head, s.pieces) && |s.pieces| == |vectors|
    ensures |Counted(EmbeddedAll(db.chunks, s, vectors, |vectors|), s.head)| == |s.pieces|
  {
    EmbeddedEach(db.chunks, s, vectors, |vectors|);
    var ids := Counted(EmbeddedAll(db.chunks, s, vectors, |vectors|), s.head);
    forall id | id in ids ensures exists i :: 0 <= i < |s.pieces| && s.pieces[i].id == id {
      if forall i :: 0 <= i < |s.pieces| ==> s.pieces[i].id != id {
        assert IsOf(db.chunks, s.head, id);
      }
    }
    forall i | 0 <= i < |s.pieces| ensures s.pieces[i].id in ids {
      assert IsOf(db.chunks, s.head, s.pieces[i].id);
    }
    AsManyAsListed(ids, s.pieces);
  }

  /** When the vectors of a source that was read are stored, and when not. */
  predicate Applicable(db: Db, dimension: nat, s: Source, vectors: seq<Vector>) {
    && |s.pieces| == |vectors|
    && s.head.document in db.documents && IsLive(db.documents[s.head.document])
    && db.documents[s.head.document].current == Some(s.head.version)
    && forall i :: 0 <= i < |vectors| ==> |vectors[i]| == dimension
  }

  /**
   The vectors of a source are stored exactly if its version is still the current one of a live
   document and there is one vector of the right size for each chunk: the count that is taken at
   the end never fails.
   */
  lemma AppliedExactly(db: Db, dimension: nat, s: Source, vectors: seq<Vector>)
    requires ChunksOk(db) && HeadOk(db, s.head) && Lists(db.chunks, s.head, s.pieces)
    ensures Apply(db, dimension, s, vectors).result.Success? <==> Applicable(db, dimension, s, vectors)
    ensures Apply(db, dimension, s, vectors).result != Failure(RuntimeError)
  {
    if |s.pieces| == |vectors| { CountIsRight(db, s, vectors); }
  }

  /**
   Then every chunk of the version has its own vector and the index that was read with the source, and nothing else
   changes.
   */
  lemma AppliedToEach(db: Db, dimension: nat, s: Source, vectors: seq<Vector>)
    requires ChunksOk(db) && HeadOk(db, s.head) && Lists(db.chunks, s.head, s.pieces)
    requires Apply(db, dimension, s, vectors).result.Success?
    ensures var db' := Apply(db, dimension, s, vectors).db;
            && |s.pieces| == |vectors|
            && AreEmbedded(db.chunks, db'.chunks, s, vectors, |vectors|)
            && (forall id :: IsOf(db.chunks, s.head, id) <==> exists i :: 0 <= i < |s.pieces| && s.pieces[i].id == id)
  {
    EmbeddedEach(db.chunks, s, vectors, |vectors|);
  }

  ghost predicate ChunksReindexed(chunks: map<Id, Chunk>, chunks': map<Id, Chunk>, head: Head) {
    && chunks'.Keys == chunks.Keys
    && forall c :: c in chunks ==>
         chunks'[c] == chunks[c].(index := if chunks[c].version == head.version then head.index else chunks[c].index,
                                  embedding := chunks'[c].embedding)
  }

  /** After an application: the chunks of the version and the version itself have the index of the source. */
  ghost predicate Reindexed(db: Db, db': Db, head: Head) {
    && HeadOk(db, head)
    && db'.bases == db.bases && db'.documents == db.documents
    && db'.versions == db.versions[head.version := db.versions[head.version].(index := head.index)]
    && ChunksReindexed(db.chunks, db'.chunks, head)
  }

  lemma EmbeddedReindexes(db: Db, chunks': map<Id, Chunk>, s: Source, vectors: seq<Vector>)
    requires ChunksOk(db) && HeadOk(db, s.head) && Lists(db.chunks, s.head, s.pieces) && |s.pieces| == |vectors|
    requires AreEmbedded(db.chunks, chunks', s, vectors, |vectors|)
    ensures ChunksReindexed(db.chunks, chunks', s.head)
  {
    forall c | c in db.chunks
      ensures var index := if db.chunks[c].version == s.head.version then s.head.index else db.chunks[c].index;
              chunks'[c] == db.chunks[c].(index := index, embedding := chunks'[c].embedding)
    {
      if db.chunks[c].version == s.head.version {
        assert IsOf(db.chunks, s.head, c);
      } else {
        assert forall i :: 0 <= i < |s.pieces| ==> IsOf(db.chunks, s.head, s.pieces[i].id);
      }
    }
  }

  lemma ApplyReindexes(db: Db, dimension: nat, s: Source, vectors: seq<Vector>)
    requires ChunksOk(db) && HeadOk(db, s.head) && Lists(db.chunks, s.head, s.pieces)
    requires Apply(db, dimension, s, vectors).result.Success?
    ensures Reindexed(db, Apply(db, dimension, s, vectors).db, s.head)
  {
    EmbeddedEach(db.chunks, s, vectors, |vectors|);
    EmbeddedReindexes(db, EmbeddedAll(db.chunks, s, vectors, |vectors|), s, vectors);
  }

  lemma ReindexKeeps(db: Db, db': Db, head: Head)
    requires Reindexed(db, db', head) && DbOk(db)
    ensures DbOk(db')
  {
    Parts(db);
    ReindexKeepsCurrent(db, db', head);
    ReindexKeepsLatest(db, db', head);
    ReindexKeepsNumbers(db, db', head);
    ReindexKeepsChunks(db, db', head);
    Whole(db');
  }

  lemma ReindexKeepsNumbers(db: Db, db': Db, head: Head)
    requires Reindexed(db, db', head) && NumbersOk(db.versions)
    ensures NumbersOk(db'.versions)
  {
    NumbersKept(db.versions, db'.versions);
  }

  lemma ReindexKeepsCurrent(db: Db, db': Db, head: Head)
    requires Reindexed(db, db', head) && CurrentOk(db)
    ensures CurrentOk(db')
  {
  }

  lemma ReindexKeepsLatest(db: Db, db': Db, head: Head)
    requires Reindexed(db, db', head) && LatestOk(db)
    ensures LatestOk(db')
  {
  }

  lemma NumbersKept(versions: map<Id, Version>, versions': map<Id, Version>)
    requires versions'.Keys == versions.Keys && NumbersOk(versions)
    requires forall v :: v in versions ==>
               versions'[v].document == versions[v].document && versions'[v].number == versions[v].number
    ensures NumbersOk(versions')
  {
    forall v, k: nat | v in versions' && 1 <= k <= versions'[v].number
      ensures HasNumber(versions', versions'[v].document, k)
    {
      assert HasNumber(versions, versions[v].document, k);
      var w :| w in versions && versions[w].document == versions[v].document && versions[w].number == k;
      assert versions'[w].number == k;
    }
  }

  lemma ReindexKeepsChunks(db: Db, db': Db, head: Head)
    requires Reindexed(db, db', head) && ChunksOk(db) && ActiveOk(db)
    ensures ChunksOk(db') && ActiveOk(db')
  {
  }

  // ---------------------------------------------------------------------------
  // What no step changes
  // ---------------------------------------------------------------------------

  /** The part of a chunk that is written once. */
  function Fixed(c: Chunk): Chunk {
    c.(index := "", active := false, embedding := None)
  }

  /**
   Versions keep their document and number and are never made current again. Chunks keep what they
   say, and a version gets no chunk after it was saved.
   */
  ghost predicate Extends(db: Db, db': Db) {
    && (forall v :: v in db.versions ==> v in db'.versions)
    && (forall v :: v in db.versions ==>
          && db'.versions[v].document == db.versions[v].document && db'.versions[v].number == db.versions[v].number
          && (db'.versions[v].isCurrent ==> db.versions[v].isCurrent))
    && (forall c :: c in db.chunks ==> c in db'.chunks)
    && (forall c :: c in db.chunks ==> Fixed(db'.chunks[c]) == Fixed(db.chunks[c]))
    && (forall c :: c in db'.chunks && c !in db.chunks ==> db'.chunks[c].version !in db.versions)
  }

  lemma ExtendsOn(a: Db, b: Db, c: Db)
    requires Extends(a, b) && Extends(b, c)
    ensures Extends(a, c)
  {
  }

  lemma ListsKept(db: Db, db': Db, head: Head, pieces: seq<Piece>)
    requires Extends(db, db') && HeadOk(db, head) && Lists(db.chunks, head, pieces)
    ensures HeadOk(db', head) && Lists(db'.chunks, head, pieces)
  {
    forall id ensures IsOf(db'.chunks, head, id) <==> IsOf(db.chunks, head, id) {
      if id in db.chunks { assert Fixed(db'.chunks[id]) == Fixed(db.chunks[id]); }
    }
    forall i | 0 <= i < |pieces|
      ensures pieces[i].content == db'.chunks[pieces[i].id].content
      ensures db'.chunks[pieces[i].id].ordinal == db.chunks[pieces[i].id].ordinal
    {
      assert IsOf(db.chunks, head, pieces[i].id);
      assert Fixed(db'.chunks[pieces[i].id]) == Fixed(db.chunks[pieces[i].id]);
    }
  }

  lemma UploadExtends(db: Db, db': Db, u: Upload, number: nat)
    requires Uploaded(db, db', u, number)
    ensures Extends(db, db')
  {
  }

  lemma SetActiveExtends(db: Db, document: Id, active: bool)
    ensures Extends(db, SetActive(db, document, active).db)
  {
  }

  lemma ReindexExtends(db: Db, db': Db, head: Head)
    requires Reindexed(db, db', head)
    ensures Extends(db, db')
  {
  }

  // ---------------------------------------------------------------------------
  // Every run keeps the invariant
  // ---------------------------------------------------------------------------

  lemma SaveKeeps(db: Db, db': Db, dimension: nat, u: Upload)
    requires DbOk(db) && NewIds(db.chunks, u) && db' == Save(db, dimension, u).db
    ensures DbOk(db') && Extends(db, db')
  {
    if Accepts(db, dimension, u) {
      Parts(db);
      var number := SaveUploads(db, dimension, u);
      UploadKeeps(db, db', u, number);
      UploadExtends(db, db', u, number);
    }
  }

  lemma UploadKeeps(db: Db, db': Db, u: Upload, number: nat)
    requires DbOk(db) && NewIds(db.chunks, u) && Uploaded(db, db', u, number)
    ensures DbOk(db')
  {
    Parts(db);
    UploadKeepsCurrent(db, db', u, number);
    UploadKeepsLatest(db, db', u, number);
    UploadKeepsNumbers(db, db', u, number);
    UploadKeepsChunks(db, db', u, number);
    UploadKeepsActive(db, db', u, number);
    Whole(db');
  }

  lemma ActiveKeeps(db: Db, db': Db, document: Id, active: bool)
    requires DbOk(db) && db' == SetActive(db, document, active).db
    ensures DbOk(db') && Extends(db, db')
  {
    SetActiveKeeps(db, document, active);
    SetActiveExtends(db, document, active);
  }

  lemma ApplyKeeps(db: Db, db': Db, dimension: nat, s: Source, vectors: seq<Vector>)
    requires DbOk(db) && HeadOk(db, s.head) && Lists(db.chunks, s.head, s.pieces)
    requires db' == Apply(db, dimension, s, vectors).db
    ensures DbOk(db') && Extends(db, db')
  {
    if Apply(db, dimension, s, vectors).result.Success? {
      Parts(db);
      ApplyReindexes(db, dimension, s, vectors);
      ReindexKeeps(db, db', s.head);
      ReindexExtends(db, db', s.head);
    }
  }

  lemma BaseKeeps(db: Db, db': Db, base: Id, row: Base)
    requires DbOk(db) && db' == db.(bases := db.bases[base := row])
    ensures DbOk(db') && Extends(db, db')
  {
    Parts(db);
    Whole(db');
  }

  /** Only the status of one document is different, and it is a mark of a deletion. */
  ghost predicate Marked(db: Db, db': Db, document: Id) {
    && db'.bases == db.bases && db'.versions == db.versions && db'.chunks == db.chunks
    && db'.documents.Keys == db.documents.Keys
    && (forall d :: d in db.documents ==> db'.documents[d] == db.documents[d].(status := db'.documents[d].status))
    && (forall d :: d in db.documents && d != document ==> db'.documents[d] == db.documents[d])
    && document in db.documents
      && (db'.documents[document].status == Deleting || db'.documents[document].status == Deleted)
  }

  lemma MarkKeepsCurrent(db: Db, db': Db, document: Id)
    requires CurrentOk(db) && Marked(db, db', document)
    ensures CurrentOk(db')
  {
  }

  lemma MarkKeepsChunks(db: Db, db': Db, document: Id)
    requires ChunksOk(db) && ActiveOk(db) && Marked(db, db', document)
    ensures ChunksOk(db') && ActiveOk(db')
  {
  }

  lemma MarkKeepsLatest(db: Db, db': Db, document: Id)
    requires LatestOk(db) && Marked(db, db', document)
    ensures LatestOk(db') && Extends(db, db')
  {
  }

  lemma MarkKeeps(db: Db, db': Db, document: Id)
    requires DbOk(db) && Marked(db, db', document)
    ensures DbOk(db') && Extends(db, db')
  {
    Parts(db);
    MarkKeepsCurrent(db, db', document);
    MarkKeepsChunks(db, db', document);
    MarkKeepsLatest(db, db', document);
    Whole(db');
  }

  lemma DbStepKeeps(dimension: nat, st: State, step: Step, db': Db)
    requires Inv(st) && db' == Do(dimension, st, step).db
    ensures DbOk(db') && Extends(st.db, db')
  {
    match step
    case SaveStep(u) => if NewIds(st.db.chunks, u) { SaveKeeps(st.db, db', dimension, u); }
    case ActiveStep(document, active) => ActiveKeeps(st.db, db', document, active);
    case ApplyStep(source, vectors) => if source in st.sources { ApplyKeeps(st.db, db', dimension, source, vectors); }
    case HeadStep(_) =>
    case ChunksStep(_) =>
    case BaseStep(base, row) => BaseKeeps(st.db, db', base, row);
    case DeleteStep(document, done) =>
      if document in st.db.documents { MarkKeeps(st.db, db', document); }
  }

  lemma HeadsKept(dimension: nat, st: State, step: Step)
    requires CurrentOk(st.db) && Extends(st.db, Do(dimension, st, step).db)
    requires forall head :: head in st.heads ==> HeadOk(st.db, head)
    ensures forall head :: head in Do(dimension, st, step).heads ==> HeadOk(Do(dimension, st, step).db, head)
  {
  }

  lemma SourcesKept(dimension: nat, st: State, step: Step, s: Source)
    requires Inv(st) && Extends(st.db, Do(dimension, st, step).db) && s in Do(dimension, st, step).sources
    ensures HeadOk(Do(dimension, st, step).db, s.head)
    ensures Lists(Do(dimension, st, step).db.chunks, s.head, s.pieces) && s.pieces != []
  {
    if s in st.sources {
      ListsKept(st.db, Do(dimension, st, step).db, s.head, s.pieces);
    }
  }

  lemma StepKeepsInv(dimension: nat, st: State, step: Step)
    requires Inv(st)
    ensures Inv(Do(dimension, st, step))
    ensures Extends(st.db, Do(dimension, st, step).db)
  {
    DbStepKeeps(dimension, st, step, Do(dimension, st, step).db);
    Parts(st.db);
    HeadsKept(dimension, st, step);
    forall s | s in Do(dimension, st, step).sources
      ensures HeadOk(Do(dimension, st, step).db, s.head)
      ensures Lists(Do(dimension, st, step).db.chunks, s.head, s.pieces) && s.pieces != []
    {
      SourcesKept(dimension, st, step, s);
    }
  }

  lemma {:induction false} RunKeepsInv(dimension: nat, st: State, steps: seq<Step>)
    requires Inv(st)
    ensures Inv(Exec(dimension, st, steps))
    ensures Extends(st.db, Exec(dimension, st, steps).db)
    decreases |steps|
  {
    if steps != [] {
      StepKeepsInv(dimension, st, steps[0]);
      RunKeepsInv(dimension, Do(dimension, st, steps[0]), steps[1..]);
      ExtendsOn(st.db, Do(dimension, st, steps[0]).db, Exec(dimension, st, steps).db);
    }
  }

  ghost predicate Reachable(dimension: nat, st: State) {
    exists bases: map<Id, Base>, steps: seq<Step> :: st == Exec(dimension, Init(bases), steps)
  }

  lemma ReachableInv(dimension: nat, st: State)
    requires Reachable(dimension, st)
    ensures Inv(st)
  {
    var bases: map<Id, Base>, steps: seq<Step> :| st == Exec(dimension, Init(bases), steps);
    Whole(Init(bases).db);
    RunKeepsInv(dimension, Init(bases), steps);
  }

  // ---------------------------------------------------------------------------
  // Which requests are accepted
  // ---------------------------------------------------------------------------

  predicate CountsAgree(u: Upload) {
    |u.contents| == |u.embeddings|
  }

  predicate BaseIsOpen(db: Db, base: Id) {
    base in db.bases && db.bases[base].enabled
  }

  predicate BelongsElsewhere(db: Db, u: Upload) {
    u.document in db.documents && db.documents[u.document].base != u.base
  }

  /** The rows can be inserted: the version's ID is new, and every vector fits its column. */
  predicate CanBeInserted(db: Db, dimension: nat, u: Upload) {
    && u.version !in db.versions
    && forall k :: 0 <= k < |u.embeddings| ==> u.embeddings[k].Some? ==> |u.embeddings[k].value| == dimension
  }

  /**
   An upload is saved exactly if there is an embedding or its absence for every chunk, the base exists and is
   enabled, the document is new or of that base, the version's ID is new and every vector fits; each
   error says which of these is the first to fail, and leaves the tables alone.
   */
  lemma SavedExactly(db: Db, dimension: nat, u: Upload)
    requires |u.ids| == |u.contents|
    ensures var Outcome(t, r) := Save(db, dimension, u);
            var counts, open, other := CountsAgree(u), BaseIsOpen(db, u.base), BelongsElsewhere(db, u);
            && (r.Success? <==> counts && open && !other && CanBeInserted(db, dimension, u))
            && (r == Failure(ValueError) <==> !counts)
            && (r == Failure(ResourceNotFound) <==> counts && !open)
            && (r == Failure(InvalidRequest) <==> counts && open && other)
            && (r == Failure(DatabaseError) <==> counts && open && !other && !CanBeInserted(db, dimension, u))
            && (r.Failure? ==> t == db)
  {
  }

  /** The version of a document that is current, and its number. */
  ghost predicate IsCurrent(db: Db, document: Id, v: Id, n: nat) {
    && document in db.documents && v in db.versions
    && db.documents[document].current == Some(v) && db.versions[v].document == document
    && db.versions[v].number == n && db.versions[v].isCurrent
  }

  lemma NumberIsCurrent(db: Db, u: Upload, number: nat, v: Id, n: nat)
    requires DbOk(db) && IsMax(db.versions, u.document, number)
    requires if u.document in db.documents then IsCurrent(db, u.document, v, n) else n == 0
    ensures number == n
  {
    Parts(db);
    if u.document in db.documents {
      assert n <= number;
    } else {
      FirstHasNone(db, u.document);
    }
  }

  lemma SavedNumber(db: Db, dimension: nat, u: Upload, number: nat)
    requires DbOk(db) && |u.ids| == |u.contents| && Save(db, dimension, u).result.Success?
    requires IsMax(db.versions, u.document, number)
    ensures Save(db, dimension, u).result.value == (number + 1, db.bases[u.base].index)
  {
    Parts(db);
    if u.document in db.documents {
      MaxIsUnique(db.versions, u.document, number, MaxNumber(db.versions, u.document));
    } else {
      FirstHasNone(db, u.document);
      MaxIsUnique(db.versions, u.document, number, 0);
    }
  }

  /**
   The upload is the current version, with the number after `n`; the version `v` that was current before is
   still there and no longer current; and those of other documents stay as they are.
   */
  ghost predicate IsNext(db: Db, t: Db, u: Upload, v: Id, n: nat) {
    && IsCurrent(t, u.document, u.version, n + 1) && t.documents[u.document].status == Ready
    && (u.document in db.documents ==>
          v in db.versions && v in t.versions && t.versions[v] == db.versions[v].(isCurrent := false))
    && forall w :: w in db.versions && db.versions[w].document != u.document ==>
         w in t.versions && t.versions[w] == db.versions[w]
  }

  lemma UploadedIsNext(db: Db, t: Db, u: Upload, n: nat, v: Id)
    requires Uploaded(db, t, u, n) && (u.document in db.documents ==> IsCurrent(db, u.document, v, n))
    ensures IsNext(db, t, u, v, n)
  {
  }

  /** A saved upload is the first version of a new document, or the one after its current version. */
  lemma NextVersion(db: Db, dimension: nat, u: Upload, v: Id, n: nat)
    requires DbOk(db) && NewIds(db.chunks, u) && Save(db, dimension, u).result.Success?
    requires if u.document in db.documents then IsCurrent(db, u.document, v, n) else n == 0
    ensures var Outcome(t, r) := Save(db, dimension, u);
            r.value == (n + 1, db.bases[u.base].index) && IsNext(db, t, u, v, n)
  {
    UploadIsNumbered(db, dimension, u, v, n);
    UploadedIsNext(db, Save(db, dimension, u).db, u, n, v);
  }

  lemma UploadIsNumbered(db: Db, dimension: nat, u: Upload, v: Id, n: nat)
    requires DbOk(db) && NewIds(db.chunks, u) && Save(db, dimension, u).result.Success?
    requires if u.document in db.documents then IsCurrent(db, u.document, v, n) else n == 0
    ensures Uploaded(db, Save(db, dimension, u).db, u, n)
    ensures Save(db, dimension, u).result.value == (n + 1, db.bases[u.base].index)
  {
    var number := SavedUploads(db, dimension, u);
    NumberIsCurrent(db, u, number, v, n);
    SavedNumber(db, dimension, u, number);
  }

  lemma SavedUploads(db: Db, dimension: nat, u: Upload) returns (number: nat)
    requires DbOk(db) && NewIds(db.chunks, u) && Save(db, dimension, u).result.Success?
    ensures Uploaded(db, Save(db, dimension, u).db, u, number) && IsMax(db.versions, u.document, number)
  {
    Parts(db);
    number := SaveUploads(db, dimension, u);
  }

  /** Only the status of the document and the flags of its chunks are different. */
  ghost predicate OnlyFlags(db: Db, t: Db, document: Id, status: Status)
    requires document in db.documents
  {
    && t.documents == db.documents[document := db.documents[document].(status := status)]
    && t.bases == db.bases && t.versions == db.versions && t.chunks.Keys == db.chunks.Keys
    && (forall c :: c in db.chunks ==> t.chunks[c] == db.chunks[c].(active := t.chunks[c].active))
    && (forall c :: c in db.chunks && db.chunks[c].document != document ==> t.chunks[c] == db.chunks[c])
  }

  lemma FlagsAreSet(db: Db, document: Id, active: bool)
    requires SetActive(db, document, active).result.Success?
    ensures OnlyFlags(db, SetActive(db, document, active).db, document, if active then Ready else Disabled)
    ensures SetActive(db, document, active).result.value == if active then Ready else Disabled
  {
  }

  /**
   A document is activated exactly if it is not deleted and its current version has the index that is active
   in its base, and deactivated whenever it is not deleted; only its status and the flags of its chunks change.
   */
  lemma SetExactly(db: Db, document: Id, active: bool)
    requires DbOk(db)
    ensures var Outcome(t, r) := SetActive(db, document, active);
            var there := document in db.documents && db.documents[document].status != Deleted;
            && (r.Success? <==> there && (active ==> IsUpToDate(db, document)))
            && (r == Failure(ResourceNotFound) <==> !there)
            && (r == Failure(InvalidRequest) <==> there && active && !IsUpToDate(db, document))
            && (r.Success? ==> r.value == (if active then Ready else Disabled) && OnlyFlags(db, t, document, r.value))
            && (r.Failure? ==> t == db)
  {
    if SetActive(db, document, active).result.Success? { FlagsAreSet(db, document, active); }
    SetSucceeds(db, document, active);
  }

  lemma SetSucceeds(db: Db, document: Id, active: bool)
    requires DbOk(db)
    ensures var Outcome(t, r) := SetActive(db, document, active);
            var there := document in db.documents && db.documents[document].status != Deleted;
            && (r.Success? <==> there && (active ==> IsUpToDate(db, document)))
            && (r == Failure(ResourceNotFound) <==> !there)
            && (r == Failure(InvalidRequest) <==> there && active && !IsUpToDate(db, document))
            && (r.Failure? ==> t == db)
  {
    Parts(db);
  }

  /** The index of the current version is the one that is active in the base. */
  ghost predicate IsUpToDate(db: Db, document: Id)
    requires document in db.documents
  {
    var d := db.documents[document];
    && d.current.Some? && d.current.value in db.versions && d.base in db.bases
    && db.versions[d.current.value].index == db.bases[d.base].index
  }

  /** The head of a re-embedding is the current version of a live document, with the active index of its base. */
  lemma HeadReadExactly(db: Db, document: Id)
    requires DbOk(db)
    ensures var r := ReadHead(db, document);
            && (r.Success? <==> document in db.documents && db.documents[document].status in {Ready, Disabled})
            && (r.Failure? ==> r.error == ResourceNotFound)
            && (r.Success? ==>
                  && r.value.document == document && Some(r.value.version) == db.documents[document].current
                  && r.value.index == db.bases[db.documents[document].base].index)
  {
    Parts(db);
  }

  // ---------------------------------------------------------------------------
  // What retrieval sees
  // ---------------------------------------------------------------------------

  /** The condition of a search on the chunk's own state. */
  predicate ChunkAdmitted(db: Db, c: Id) {
    && c in db.chunks && db.chunks[c].active
    && db.chunks[c].base in db.bases && db.chunks[c].index == db.bases[db.chunks[c].base].index
  }

  /** All of it, but for the times and the permissions of a document, which do not tell its chunks apart. */
  predicate Admitted(db: Db, c: Id) {
    && ChunkAdmitted(db, c)
    && db.bases[db.chunks[c].base].enabled
    && db.chunks[c].document in db.documents && db.documents[db.chunks[c].document].status == Ready
    && db.documents[db.chunks[c].document].current == Some(db.chunks[c].version)
    && db.chunks[c].version in db.versions && db.versions[db.chunks[c].version].isCurrent
  }

  /**
   In every state a search admits all chunks of a ready document's current version or none of them,
   never one of another version, and none of a disabled document. Beyond the chunk's own state the
   joins only matter for documents that are being deleted and for disabled knowledge bases.
   */
  lemma RetrievalIsAllOrNone(dimension: nat, st: State, c: Id)
    requires Reachable(dimension, st) && c in st.db.chunks
    ensures var db, chunk := st.db, st.db.chunks[c];
            && chunk.document in db.documents && chunk.base in db.bases
            && var d := db.documents[chunk.document];
            && d.base == chunk.base
            && (ChunkAdmitted(db, c) ==> d.current == Some(chunk.version) && d.status != Disabled)
            && (d.status == Ready && d.current == Some(chunk.version) ==>
                  (ChunkAdmitted(db, c) <==> CurrentIndex(db, d) == Some(db.bases[d.base].index)))
            && (Admitted(db, c) <==> ChunkAdmitted(db, c) && IsLive(d) && db.bases[d.base].enabled)
  {
    ReachableInv(dimension, st);
    Parts(st.db);
  }

  /** Each document has exactly one current version, the one it names, and it has the highest number of all. */
  lemma OneCurrentVersion(dimension: nat, st: State, document: Id) returns (v: Id)
    requires Reachable(dimension, st) && document in st.db.documents
    ensures st.db.documents[document].current == Some(v) && v in st.db.versions
    ensures forall w :: w in st.db.versions && st.db.versions[w].document == document ==>
              (st.db.versions[w].isCurrent <==> w == v)
    ensures forall k: nat :: HasNumber(st.db.versions, document, k) <==> 1 <= k <= st.db.versions[v].number
  {
    ReachableInv(dimension, st);
    Parts(st.db);
    v := st.db.documents[document].current.value;
  }

  /** After an activation a search admits exactly the chunks of the current version, after a deactivation none. */
  lemma ActivationDecides(dimension: nat, st: State, document: Id, active: bool, c: Id)
    requires Reachable(dimension, st) && c in st.db.chunks && st.db.chunks[c].document == document
    requires SetActive(st.db, document, active).result.Success?
    ensures ChunkAdmitted(SetActive(st.db, document, active).db, c)
       <==> active && st.db.documents[document].current == Some(st.db.chunks[c].version)
  {
    ReachableInv(dimension, st);
    Parts(st.db);
  }

  /** After an upload a search admits exactly the new chunks of the document. */
  lemma UploadIsFound(dimension: nat, st: State, u: Upload, c: Id)
    requires Reachable(dimension, st) && NewIds(st.db.chunks, u) && Save(st.db, dimension, u).result.Success?
    requires var t := Save(st.db, dimension, u).db; c in t.chunks && t.chunks[c].document == u.document
    ensures ChunkAdmitted(Save(st.db, dimension, u).db, c) <==> c in u.ids
  {
    ReachableInv(dimension, st);
    Parts(st.db);
    var number := SaveUploads(st.db, dimension, u);
    UploadedIsFound(st.db, Save(st.db, dimension, u).db, u, number, c);
  }

  lemma UploadedIsFound(db: Db, t: Db, u: Upload, number: nat, c: Id)
    requires ChunksOk(db) && NewIds(db.chunks, u) && Uploaded(db, t, u, number)
    requires c in t.chunks && t.chunks[c].document == u.document
    ensures ChunkAdmitted(t, c) <==> c in u.ids
  {
    if c in db.chunks {
      assert t.chunks[c] == db.chunks[c].(active := false);
    } else {
      var k :| 0 <= k < |u.ids| && c == u.ids[k];
      assert t.chunks[c] == Row(u, db.bases[u.base].index, k);
    }
  }

  /**
   A re-embedding that is stored makes all chunks of a ready document's version found, if the index
   that was read with its source is still the active one, and none otherwise.
   */
  lemma ReindexIsFound(dimension: nat, st: State, s: Source, vectors: seq<Vector>, c: Id)
    requires Reachable(dimension, st) && s in st.sources && Apply(st.db, dimension, s, vectors).result.Success?
    requires c in st.db.chunks && st.db.chunks[c].version == s.head.version
    requires st.db.documents[s.head.document].status == Ready
    ensures st.db.chunks[c].base in st.db.bases
    ensures ChunkAdmitted(Apply(st.db, dimension, s, vectors).db, c)
       <==> st.db.bases[st.db.chunks[c].base].index == s.head.index
  {
    ReachableInv(dimension, st);
    Parts(st.db);
    ApplyReindexes(st.db, dimension, s, vectors);
    ReindexedIsFound(st.db, Apply(st.db, dimension, s, vectors).db, s.head, c);
  }

  lemma ReindexedIsFound(db: Db, t: Db, head: Head, c: Id)
    requires CurrentOk(db) && ChunksOk(db) && ActiveOk(db) && Reindexed(db, t, head)
    requires c in db.chunks && db.chunks[c].version == head.version
    requires head.document in db.documents && db.documents[head.document].status == Ready
    requires db.documents[head.document].current == Some(head.version)
    ensures db.chunks[c].base in db.bases
    ensures ChunkAdmitted(t, c) <==> db.bases[db.chunks[c].base].index == head.index
  {
  }

  // ---------------------------------------------------------------------------
  // From upload to re-embedding
  // ---------------------------------------------------------------------------

  /** What was uploaded is what is read: the chunks of the version in their order. */
  lemma SavedTextIsRead(dimension: nat, st: State, u: Upload, later: seq<Step>, pieces: seq<Piece>, index: string)
    requires Inv(st) && NewIds(st.db.chunks, u) && Save(st.db, dimension, u).result.Success?
    requires Lists(Exec(dimension, Do(dimension, st, SaveStep(u)), later).db.chunks,
                   Head(u.document, u.version, index), pieces)
    ensures |pieces| == |u.contents|
    ensures forall k :: 0 <= k < |pieces| ==> pieces[k].content == u.contents[k]
  {
    Parts(st.db);
    var number := SaveUploads(st.db, dimension, u);
    StepKeepsInv(dimension, st, SaveStep(u));
    var st1 := Do(dimension, st, SaveStep(u));
    RunKeepsInv(dimension, st1, later);
    ListedInOrder(st.db, st1.db, Exec(dimension, st1, later).db, u, number, index, pieces);
  }

  /** However much later: the chunks of the version are the rows of the upload, with their numbers and contents. */
  lemma RowsStay(db: Db, db1: Db, db2: Db, u: Upload, number: nat, head: Head)
    requires ChunksOk(db) && Uploaded(db, db1, u, number) && Extends(db1, db2) && NewIds(db.chunks, u)
    requires head.document == u.document && head.version == u.version
    ensures forall id :: IsOf(db2.chunks, head, id) <==> id in u.ids
  {
    forall id ensures IsOf(db2.chunks, head, id) <==> id in u.ids {
      if IsOf(db2.chunks, head, id) {
        assert id in db1.chunks;
        assert Fixed(db2.chunks[id]) == Fixed(db1.chunks[id]);
      }
      if k :| 0 <= k < |u.ids| && u.ids[k] == id {
        assert Fixed(db2.chunks[id]) == Fixed(db1.chunks[id]);
      }
    }
  }

  lemma RowsSay(db: Db, db1: Db, db2: Db, u: Upload, number: nat)
    requires Uploaded(db, db1, u, number) && Extends(db1, db2)
    ensures forall k :: 0 <= k < |u.ids| ==> u.ids[k] in db2.chunks
    ensures forall k :: 0 <= k < |u.ids| ==> db2.chunks[u.ids[k]].ordinal == k + 1
    ensures forall k :: 0 <= k < |u.ids| ==> db2.chunks[u.ids[k]].content == u.contents[k]
  {
    forall k | 0 <= k < |u.ids|
      ensures u.ids[k] in db2.chunks
      ensures db2.chunks[u.ids[k]].ordinal == k + 1 && db2.chunks[u.ids[k]].content == u.contents[k]
    {
      assert Fixed(db2.chunks[u.ids[k]]) == Fixed(db1.chunks[u.ids[k]]);
    }
  }

  lemma ListedInOrder(db: Db, db1: Db, db2: Db, u: Upload, number: nat, index: string, pieces: seq<Piece>)
    requires ChunksOk(db) && Uploaded(db, db1, u, number) && Extends(db1, db2) && NewIds(db.chunks, u)
    requires Lists(db2.chunks, Head(u.document, u.version, index), pieces)
    ensures |pieces| == |u.contents|
    ensures forall k :: 0 <= k < |pieces| ==> pieces[k].content == u.contents[k]
  {
    var head := Head(u.document, u.version, index);
    RowsStay(db, db1, db2, u, number, head);
    RowsSay(db, db1, db2, u, number);
    var listed := seq(|pieces|, i requires 0 <= i < |pieces| => pieces[i].id);
    ListedAreAll(u.ids, pieces, listed, db2.chunks, head);
    InOrder(u.ids, listed, map id | id in db2.chunks :: db2.chunks[id].ordinal);
    forall k | 0 <= k < |pieces| ensures pieces[k].content == u.contents[k] {
      assert listed[k] == u.ids[k];
    }
  }

  lemma ListedAreAll(ids: seq<Id>, pieces: seq<Piece>, listed: seq<Id>, chunks: map<Id, Chunk>, head: Head)
    requires Lists(chunks, head, pieces) && forall id :: IsOf(chunks, head, id) <==> id in ids
    requires |listed| == |pieces| && forall i :: 0 <= i < |pieces| ==> listed[i] == pieces[i].id
    ensures forall id :: id in ids <==> id in listed
  {
    forall id ensures id in ids <==> id in listed {
      if id in ids {
        assert IsOf(chunks, head, id);
        var i :| 0 <= i < |pieces| && pieces[i].id == id;
        assert listed[i] == id;
      }
      if i :| 0 <= i < |listed| && listed[i] == id { assert IsOf(chunks, head, pieces[i].id); }
    }
  }

  ghost predicate DistinctIds(ids: seq<Id>) {
    forall i, j :: 0 <= i < j < |ids| ==> ids[i] != ids[j]
  }

  /** The last of each list has the greatest key, so it is the same. */
  lemma SameLast(ids: seq<Id>, listed: seq<Id>, key: map<Id, nat>)
    requires ids != [] && listed != [] && forall id :: id in ids <==> id in listed
    requires forall id :: id in ids ==> id in key
    requires forall i, j :: 0 <= i < j < |ids| ==> key[ids[i]] < key[ids[j]]
    requires forall i, j :: 0 <= i < j < |listed| ==> key[listed[i]] <= key[listed[j]]
    ensures listed[|listed| - 1] == ids[|ids| - 1]
  {
    var last, final := ids[|ids| - 1], listed[|listed| - 1];
    assert last in listed && final in ids;
    var i :| 0 <= i < |listed| && listed[i] == last;
    assert key[last] <= key[final];
    var k :| 0 <= k < |ids| && ids[k] == final;
  }

  /** Two lists of the same IDs, both in the order of the same injective key, are the same list. */
  lemma {:induction false} InOrder(ids: seq<Id>, listed: seq<Id>, key: map<Id, nat>)
    requires DistinctIds(ids) && DistinctIds(listed)
    requires forall id :: id in ids <==> id in listed
    requires forall id :: id in ids ==> id in key
    requires forall i, j :: 0 <= i < j < |ids| ==> key[ids[i]] < key[ids[j]]
    requires forall i, j :: 0 <= i < j < |listed| ==> key[listed[i]] <= key[listed[j]]
    ensures listed == ids
    decreases |ids|
  {
    if ids == [] || listed == [] {
      BothEmpty(ids, listed);
    } else {
      var n, m := |ids| - 1, |listed| - 1;
      SameLast(ids, listed, key);
      SameWithoutLast(ids, listed);
      InOrder(ids[..n], listed[..m], key);
      assert ids == ids[..n] + [ids[n]] && listed == listed[..m] + [listed[m]];
    }
  }

  lemma SameWithoutLast(ids: seq<Id>, listed: seq<Id>)
    requires DistinctIds(ids) && DistinctIds(listed) && ids != [] && listed != []
    requires ids[|ids| - 1] == listed[|listed| - 1] && forall id :: id in ids <==> id in listed
    ensures var short, rest := ids[..|ids| - 1], listed[..|listed| - 1]; forall id :: id in short <==> id in rest
  {
    var short, rest := ids[..|ids| - 1], listed[..|listed| - 1];
    forall id ensures id in short <==> id in rest {
      if id in short { assert id in ids && id in listed; }
      if id in rest { assert id in listed && id in ids; }
    }
  }

  /**
   Whatever happened since a source was read: applying its vectors succeeds exactly if its version
   is still current, and it then gives every chunk of the version its own vector.
   */
  lemma StaleSourcesAreRefused(dimension: nat, st: State, s: Source, vectors: seq<Vector>)
    requires Reachable(dimension, st) && s in st.sources
    ensures var r := Apply(st.db, dimension, s, vectors);
            && (r.result.Success? <==> Applicable(st.db, dimension, s, vectors))
            && r.result != Failure(RuntimeError)
            && (r.result.Failure? ==> r.db == st.db)
            && (r.result.Success? ==>
                  && (forall i :: 0 <= i < |vectors| ==>
                        && s.pieces[i].id in r.db.chunks
                        && r.db.chunks[s.pieces[i].id].embedding == Some(vectors[i]))
                  && (forall c :: c in st.db.chunks && st.db.chunks[c].version != s.head.version ==>
                        c in r.db.chunks && r.db.chunks[c] == st.db.chunks[c]))
  {
    ReachableInv(dimension, st);
    Parts(st.db);
    AppliedExactly(st.db, dimension, s, vectors);
    if Apply(st.db, dimension, s, vectors).result.Success? { AppliedToEach(st.db, dimension, s, vectors); }
    assert forall i :: 0 <= i < |s.pieces| ==> IsOf(st.db.chunks, s.head, s.pieces[i].id);
  }

  /** Once a version is not the current one, no later run makes it so, and vectors read for it are refused for good. */
  lemma SupersededForGood(dimension: nat, st: State, steps: seq<Step>, s: Source, vectors: seq<Vector>)
    requires Inv(st) && s in st.sources && !st.db.versions[s.head.version].isCurrent
    ensures Apply(Exec(dimension, st, steps).db, dimension, s, vectors).result.Failure?
  {
    RunKeepsInv(dimension, st, steps);
    Parts(Exec(dimension, st, steps).db);
    SupersededIsRefused(Exec(dimension, st, steps).db, dimension, s, vectors);
  }

  lemma SupersededIsRefused(db: Db, dimension: nat, s: Source, vectors: seq<Vector>)
    requires CurrentOk(db) && HeadOk(db, s.head) && !db.versions[s.head.version].isCurrent
    ensures Apply(db, dimension, s, vectors).result.Failure?
  {
  }

  // ---------------------------------------------------------------------------
  // The repository
  // ---------------------------------------------------------------------------

  /** The three operations as the program runs them: statement by statement on the tables. */
  class Repository {
    var bases: map<Id, Base>
    var documents: map<Id, Document>
    var versions: map<Id, Version>
    var chunks: map<Id, Chunk>
    const dimension: nat

    constructor (bases: map<Id, Base>, dimension: nat)
      ensures Tables() == Init(bases).db && this.dimension == dimension
    {
      this.bases, documents, versions, chunks := bases, map[], map[], map[];
      this.dimension := dimension;
    }

    function Tables(): Db
      reads this
    {
      Db(bases, documents, versions, chunks)
    }

    /** `SELECT COALESCE(max(version_number), 0)` */
    method LastNumber(document: Id) returns (n: nat)
      ensures n == MaxNumber(versions, document)
    {
      n := 0;
      var rest := versions.Keys;
      while rest != {}
        invariant rest <= versions.Keys
        invariant forall v :: v in versions && v !in rest && versions[v].document == document ==>
                    versions[v].number <= n
        invariant n > 0 ==> HasNumber(versions, document, n)
        decreases rest
      {
        var v :| v in rest;
        rest := rest - {v};
        if versions[v].document == document && versions[v].number > n {
          n := versions[v].number;
        }
      }
      MaxIsUnique(versions, document, n, MaxNumber(versions, document));
    }

    /** Inserting the rows of an upload one after the other, until one has a vector of the wrong size. */
    method InsertChunks(u: Upload, index: string) returns (ok: bool)
      requires |u.contents| == |u.embeddings| == |u.ids|
      modifies this`chunks
      ensures ok <==> forall k :: 0 <= k < |u.embeddings| ==> FitsColumn(dimension, u.embeddings[k])
      ensures ok ==> chunks == WithRows(old(chunks), u, index, |u.contents|)
    {
      for k := 0 to |u.contents|
        invariant chunks == WithRows(old(chunks), u, index, k)
        invariant forall i :: 0 <= i < k ==> FitsColumn(dimension, u.embeddings[i])
      {
        if !FitsColumn(dimension, u.embeddings[k]) {
          return false;
        }
        chunks := chunks[u.ids[k] := Row(u, index, k)];
      }
      return true;
    }

    /** What comes before the new version: the row of the document, and nothing current or active in it. */
    method OpenDocument(u: Upload) returns (number: nat)
      modifies this`documents, this`versions, this`chunks
      ensures number == if u.document in old(documents) then MaxNumber(old(versions), u.document) + 1 else 1
      ensures versions == if u.document in old(documents) then Superseded(old(versions), u.document) else old(versions)
      ensures chunks == if u.document in old(documents) then Activated(old(chunks), u.document, None) else old(chunks)
      ensures u.document in documents && documents[u.document].status == Indexing
      ensures forall d :: d != u.document ==> (d in documents <==> d in old(documents))
      ensures forall d :: d in old(documents) && d != u.document ==> documents[d] == old(documents)[d]
    {
      if u.document !in documents {
        documents := documents[u.document := Document(u.base, Indexing, None)];
        return 1;
      }
      var last := LastNumber(u.document);
      documents := documents[u.document := documents[u.document].(status := Indexing)];
      versions := Superseded(versions, u.document);
      chunks := Activated(chunks, u.document, None);
      return last + 1;
    }

    /** One transaction: what was written before a failure is rolled back. */
    method SaveDocument(u: Upload) returns (r: Result<(nat, string), Error>)
      requires |u.ids| == |u.contents|
      modifies this
      ensures Tables() == Save(old(Tables()), dimension, u).db
      ensures r == Save(old(Tables()), dimension, u).result
    {
      if |u.contents| != |u.embeddings| {
        return Failure(ValueError);
      }
      if u.base !in bases || !bases[u.base].enabled {
        return Failure(ResourceNotFound);
      }
      if u.document in documents && documents[u.document].base != u.base {
        return Failure(InvalidRequest);
      }
      var documentsBefore, versionsBefore, chunksBefore := documents, versions, chunks;
      var index := bases[u.base].index;
      var number := OpenDocument(u);
      var ok := u.version !in versions;
      if ok {
        versions := versions[u.version := Version(u.document, number, index, true)];
        ok := InsertChunks(u, index);
      }
      if !ok {
        documents, versions, chunks := documentsBefore, versionsBefore, chunksBefore;
        return Failure(DatabaseError);
      }
      documents := documents[u.document := Document(u.base, Ready, Some(u.version))];
      assert documents == documentsBefore[u.document := Document(u.base, Ready, Some(u.version))];
      return Success((number, index));
    }

    method SetDocumentActive(document: Id, active: bool) returns (r: Result<Status, Error>)
      modifies this
      ensures Tables() == SetActive(old(Tables()), document, active).db
      ensures r == SetActive(old(Tables()), document, active).result
    {
      if document !in documents || documents[document].base !in bases || documents[document].status == Deleted {
        return Failure(ResourceNotFound);
      }
      var d := documents[document];
      if active {
        if d.current.None? || CurrentIndex(Tables(), d) != Some(bases[d.base].index) {
          return Failure(InvalidRequest);
        }
        chunks := Activated(chunks, document, d.current);
      } else {
        chunks := Activated(chunks, document, None);
      }
      var status := if active then Ready else Disabled;
      documents := documents[document := d.(status := status)];
      return Success(status);
    }

    /** `ORDER BY ordinal`, by insertion. */
    method ListChunks(head: Head) returns (pieces: seq<Piece>)
      ensures Lists(chunks, head, pieces)
    {
      pieces := [];
      var rest := set id | id in chunks && IsOf(chunks, head, id);
      while rest != {}
        invariant forall id :: id in rest ==> IsOf(chunks, head, id)
        invariant Listed(chunks, head, pieces)
        invariant forall id :: Names(pieces, id) <==> IsOf(chunks, head, id) && id !in rest
        decreases rest
      {
        var id :| id in rest;
        var i := PlaceOf(head, pieces, id);
        InsertListed(chunks, head, pieces, id, i);
        forall x ensures Names(InsertAt(pieces, i, Piece(id, chunks[id].content)), x) <==> x == id || Names(pieces, x) {
          InsertAtNames(pieces, i, Piece(id, chunks[id].content), x);
        }
        rest := rest - {id};
        pieces := InsertAt(pieces, i, Piece(id, chunks[id].content));
      }
      assert forall id :: IsOf(chunks, head, id) ==> Names(pieces, id);
    }

    method PlaceOf(ghost head: Head, pieces: seq<Piece>, id: Id) returns (i: nat)
      requires Listed(chunks, head, pieces) && IsOf(chunks, head, id)
      ensures i <= |pieces|
      ensures forall j :: 0 <= j < i ==> chunks[pieces[j].id].ordinal <= chunks[id].ordinal
      ensures forall j :: i <= j < |pieces| ==> chunks[id].ordinal <= chunks[pieces[j].id].ordinal
    {
      i := 0;
      while i < |pieces| && chunks[pieces[i].id].ordinal <= chunks[id].ordinal
        invariant i <= |pieces|
        invariant forall j :: 0 <= j < i ==> chunks[pieces[j].id].ordinal <= chunks[id].ordinal
      {
        i := i + 1;
      }
    }

    method GetReindexSource(document: Id) returns (r: Result<Source, Error>)
      ensures ReadHead(Tables(), document).Failure? ==> r == Failure(ReadHead(Tables(), document).error)
      ensures r.Success? ==>
                && ReadHead(Tables(), document) == Success(r.value.head)
                && Lists(chunks, r.value.head, r.value.pieces) && r.value.pieces != []
      ensures r.Failure? && ReadHead(Tables(), document).Success? ==>
                && r == Failure(InvalidRequest)
                && forall id :: id in chunks ==> !IsOf(chunks, ReadHead(Tables(), document).value, id)
    {
      var head :- ReadHead(Tables(), document);
      var pieces := ListChunks(head);
      if pieces == [] {
        return Failure(InvalidRequest);
      }
      return Success(Source(head, pieces));
    }

    /** One transaction: what was updated before a failure is rolled back. */
    method ApplyDocumentEmbeddings(s: Source, vectors: seq<Vector>) returns (r: Result<(), Error>)
      modifies this
      ensures Tables() == Apply(old(Tables()), dimension, s, vectors).db
      ensures r == Apply(old(Tables()), dimension, s, vectors).result
    {
      var head := s.head;
      if |s.pieces| != |vectors| {
        return Failure(ValueError);
      }
      if head.document !in documents || !IsLive(documents[head.document]) || documents[head.document].current.None? {
        return Failure(ResourceNotFound);
      }
      if documents[head.document].current != Some(head.version) {
        return Failure(InvalidRequest);
      }
      var before := chunks;
      for i := 0 to |vectors|
        invariant chunks == EmbeddedAll(before, s, vectors, i)
        invariant documents == old(documents) && versions == old(versions) && bases == old(bases)
        invariant forall j :: 0 <= j < i ==> |vectors[j]| == dimension
      {
        if |vectors[i]| != dimension {
          chunks := before;
          return Failure(DatabaseError);
        }
        chunks := Embedded(chunks, head, s.pieces[i].id, vectors[i]);
      }
      if |Counted(chunks, head)| != |s.pieces| {
        chunks := before;
        return Failure(RuntimeError);
      }
      if head.version in versions {
        versions := versions[head.version := versions[head.version].(index := head.index)];
      }
      return Success(());
    }
  }

  lemma MaxIsUnique(versions: map<Id, Version>, document: Id, m: nat, n: nat)
    requires IsMax(versions, document, m) && IsMax(versions, document, n)
    ensures m == n
  {
  }

  /** A list of some of the chunks of a version, by ordinal. */
  ghost predicate Listed(chunks: map<Id, Chunk>, head: Head, pieces: seq<Piece>) {
    && (forall i :: 0 <= i < |pieces| ==>
          IsOf(chunks, head, pieces[i].id) && pieces[i].content == chunks[pieces[i].id].content)
    && (forall i, j :: 0 <= i < j < |pieces| ==>
          pieces[i].id != pieces[j].id && chunks[pieces[i].id].ordinal <= chunks[pieces[j].id].ordinal)
  }

  function InsertAt(pieces: seq<Piece>, i: nat, piece: Piece): seq<Piece>
    requires i <= |pieces|
  {
    pieces[..i] + [piece] + pieces[i..]
  }

  ghost predicate Names(pieces: seq<Piece>, id: Id) {
    exists i :: 0 <= i < |pieces| && pieces[i].id == id
  }

  lemma InsertAtNames(pieces: seq<Piece>, i: nat, piece: Piece, x: Id)
    requires i <= |pieces|
    ensures Names(InsertAt(pieces, i, piece), x) <==> x == piece.id || Names(pieces, x)
  {
    var r := InsertAt(pieces, i, piece);
    if j :| 0 <= j < |pieces| && pieces[j].id == x { assert r[if j < i then j else j + 1].id == x; }
    if x == piece.id { assert r[i].id == x; }
  }

  lemma InsertListed(chunks: map<Id, Chunk>, head: Head, pieces: seq<Piece>, id: Id, i: nat)
    requires Listed(chunks, head, pieces) && IsOf(chunks, head, id) && i <= |pieces|
    requires !Names(pieces, id)
    requires forall j :: 0 <= j < i ==> chunks[pieces[j].id].ordinal <= chunks[id].ordinal
    requires forall j :: i <= j < |pieces| ==> chunks[id].ordinal <= chunks[pieces[j].id].ordinal
    ensures Listed(chunks, head, InsertAt(pieces, i, Piece(id, chunks[id].content)))
  {
  }
}

/** One ingestion job's parse / chunk / embed loop (`ui/backend/ingestion.py`), with the
    chunks an earlier job may hand forward, against the from-scratch result. */
module Ingestion {
  import opened Basics

  datatype Name = Name(path: string)
  datatype Data = Data(bytes: string)
  datatype Hash = Hash(digest: string)
  type Vector = seq<real>

  /** What the chunker returns for one piece of a document. */
  datatype Piece = Piece(text: string, page: Option<int>, heading: Option<string>)

  /** A `KnowledgeChunk` row: its text fields, `embedding_json` and `embedding_model`. */
  datatype Chunk = Chunk(piece: Piece, vector: Option<Vector>, model: Option<string>)

  /** A `KnowledgeDocument` row with the chunk rows that point at it. */
  datatype Doc =
    | Chunked(hash: Hash, chunks: seq<Chunk>)
    | Failed(hash: Hash)

  datatype KbType = LocalFolder | VectorOnly | Hybrid

  /** The arguments a worker is run with. */
  datatype Shape = Shape(kbType: KbType, model: Option<string>, size: int, overlap: int)

  /** The code outside this model: reading and chunking a file under one parser revision
      (`None` when it raises), embedding a text, hashing a file and folding a name's case.
      `preimage` is the inverse that a collision-free hash has; `keys`, whether the database
      enforces foreign keys, as Postgres does and the SQLite file does not. */
  datatype Tools = Tools(
    cut: (int, Name, Data, int, int) -> Option<seq<Piece>>,
    embed: (Option<string>, string) -> Vector,
    hash: Data -> Hash,
    preimage: Hash -> Data,
    fold: Name -> Name,
    keys: bool)

  ghost predicate CollisionFree(t: Tools) {
    forall d :: t.preimage(t.hash(d)) == d
  }

  /** `{(filename, content_hash): chunks}`. */
  type Reuse = map<(Name, Hash), seq<Chunk>>

  predicate Embeds(k: KbType) { k == VectorOnly || k == Hybrid }

  // ------------------------------------------------------------------ from scratch

  function FreshChunk(t: Tools, shape: Shape, p: Piece): Chunk {
    if Embeds(shape.kbType)
    then Chunk(p, Some(t.embed(shape.model, p.text)), shape.model)
    else Chunk(p, None, None)
  }

  /** Parsing, cutting and embedding one file with nothing to carry forward. A file that
      raises and a file that yields no pieces are both failed documents. */
  function FreshDoc(t: Tools, rev: int, shape: Shape, name: Name, data: Data): Doc {
    var pieces := t.cut(rev, name, data, shape.size, shape.overlap);
    if pieces.None? || pieces.value == [] then Failed(t.hash(data))
    else Chunked(t.hash(data), seq(|pieces.value|, i requires 0 <= i < |pieces.value| => FreshChunk(t, shape, pieces.value[i])))
  }

  function FreshRows(t: Tools, rev: int, shape: Shape, files: map<Name, Data>): map<Name, Doc> {
    map n | n in files :: FreshDoc(t, rev, shape, n, files[n])
  }

  // ------------------------------------------------------------------ incremental

  predicate Carries(reuse: Reuse, name: Name, hash: Hash) {
    (name, hash) in reuse && reuse[(name, hash)] != []
  }

  /** One document of an incremental job: carried when the same name and bytes are in the
      reuse table, else cut and embedded afresh. */
  function RowFor(t: Tools, rev: int, shape: Shape, reuse: Reuse, name: Name, data: Data): Doc {
    var h := t.hash(data);
    if Carries(reuse, name, h) then Chunked(h, reuse[(name, h)]) else FreshDoc(t, rev, shape, name, data)
  }

  function Rows(t: Tools, rev: int, shape: Shape, reuse: Reuse, files: map<Name, Data>): map<Name, Doc> {
    map n | n in files :: RowFor(t, rev, shape, reuse, n, files[n])
  }

  /** The files whose pieces this job has to pay an embedding for. */
  function Embedded(t: Tools, rev: int, shape: Shape, reuse: Reuse, files: map<Name, Data>): set<Name> {
    set n | n in files && Embeds(shape.kbType) && !Carries(reuse, n, t.hash(files[n])) && FreshDoc(t, rev, shape, n, files[n]).Chunked?
  }

  function Readable(rows: map<Name, Doc>): set<Name> {
    set n | n in rows && rows[n].Chunked?
  }

  function Unreadable(rows: map<Name, Doc>): set<Name> {
    set n | n in rows && rows[n].Failed?
  }

  /** How a job's one write transaction leaves it. `EmbeddingFailed` writes no rows at all. */
  datatype Outcome =
    | Written(rows: map<Name, Doc>, succeeded: nat, failed: nat, completed: bool)
    | EmbeddingFailed

  function Outcomes(t: Tools, rev: int, shape: Shape, reuse: Reuse, files: map<Name, Data>, embedOk: bool): Outcome {
    if !embedOk && Embedded(t, rev, shape, reuse, files) != {} then EmbeddingFailed
    else
      var rows := Rows(t, rev, shape, reuse, files);
      Written(rows, |Readable(rows)|, |Unreadable(rows)|, Readable(rows) != {})
  }

  // ------------------------------------------------------------------ the worker's loops

  /** A document cut in this run, before the embedding call has filled its vectors in. */
  function Unembedded(d: Doc): Doc {
    match d
    case Chunked(h, chunks) => Chunked(h, seq(|chunks|, i requires 0 <= i < |chunks| => Chunk(chunks[i].piece, None, None)))
    case Failed(_) => d
  }

  /** Writing one document's vectors and model onto its chunks, chunk by chunk. */
  method FillVectors(t: Tools, shape: Shape, d: Doc) returns (out: Doc)
    requires d.Chunked?
    ensures out.Chunked? && out.hash == d.hash && |out.chunks| == |d.chunks|
    ensures forall i :: 0 <= i < |d.chunks| ==>
      out.chunks[i] == Chunk(d.chunks[i].piece, Some(t.embed(shape.model, d.chunks[i].piece.text)), shape.model)
  {
    var chunks := [];
    for i := 0 to |d.chunks|
      invariant |chunks| == i
      invariant forall j :: 0 <= j < i ==>
        chunks[j] == Chunk(d.chunks[j].piece, Some(t.embed(shape.model, d.chunks[j].piece.text)), shape.model)
    {
      chunks := chunks + [Chunk(d.chunks[i].piece, Some(t.embed(shape.model, d.chunks[i].piece.text)), shape.model)];
    }
    out := Chunked(d.hash, chunks);
  }

  /** A document as the file loop leaves it: carried whole, or cut and not yet embedded. */
  function PendingRow(t: Tools, rev: int, shape: Shape, reuse: Reuse, name: Name, data: Data): Doc {
    var h := t.hash(data);
    if Carries(reuse, name, h) then Chunked(h, reuse[(name, h)]) else Unembedded(FreshDoc(t, rev, shape, name, data))
  }

  function PendingRows(t: Tools, rev: int, shape: Shape, reuse: Reuse, files: map<Name, Data>, names: set<Name>): map<Name, Doc>
    requires names <= files.Keys
  {
    map n | n in names :: PendingRow(t, rev, shape, reuse, n, files[n])
  }

  function NewlyCut(t: Tools, rev: int, shape: Shape, reuse: Reuse, files: map<Name, Data>, names: set<Name>): set<Name>
    requires names <= files.Keys
  {
    set n | n in names && !Carries(reuse, n, t.hash(files[n])) && FreshDoc(t, rev, shape, n, files[n]).Chunked?
  }

  /** The per-file part of the loop: carry, reject or cut one file. */
  method ParseFile(t: Tools, rev: int, shape: Shape, reuse: Reuse, name: Name, data: Data)
    returns (doc: Doc, cutNow: bool)
    ensures doc == PendingRow(t, rev, shape, reuse, name, data)
    ensures cutNow == (!Carries(reuse, name, t.hash(data)) && FreshDoc(t, rev, shape, name, data).Chunked?)
  {
    var hash := t.hash(data);
    if Carries(reuse, name, hash) {
      return Chunked(hash, reuse[(name, hash)]), false;
    }
    var pieces := t.cut(rev, name, data, shape.size, shape.overlap);
    if pieces.None? || pieces.value == [] {
      return Failed(hash), false;
    }
    var chunks := [];
    for i := 0 to |pieces.value|
      invariant |chunks| == i
      invariant forall j :: 0 <= j < i ==> chunks[j] == Chunk(pieces.value[j], None, None)
    {
      chunks := chunks + [Chunk(pieces.value[i], None, None)];
    }
    ghost var target := Unembedded(FreshDoc(t, rev, shape, name, data));
    assert forall j :: 0 <= j < |chunks| ==> chunks[j] == target.chunks[j];
    assert chunks == target.chunks;
    doc, cutNow := Chunked(hash, chunks), true;
  }

  /** The file loop: every staged file becomes one document and moves one counter. */
  method ParseFiles(t: Tools, rev: int, shape: Shape, reuse: Reuse, files: map<Name, Data>)
    returns (pending: map<Name, Doc>, newDocs: set<Name>, succeeded: nat, failed: nat)
    ensures pending == PendingRows(t, rev, shape, reuse, files, files.Keys)
    ensures newDocs == NewlyCut(t, rev, shape, reuse, files, files.Keys)
    ensures succeeded == |Readable(pending)| && failed == |Unreadable(pending)|
  {
    pending, newDocs, succeeded, failed := map[], {}, 0, 0;
    var left := files.Keys;
    while left != {}
      invariant left <= files.Keys
      invariant pending == PendingRows(t, rev, shape, reuse, files, files.Keys - left)
      invariant newDocs == NewlyCut(t, rev, shape, reuse, files, files.Keys - left)
      invariant succeeded == |Readable(pending)| && failed == |Unreadable(pending)|
      decreases left
    {
      var name := AnyOf(left);
      ghost var done := files.Keys - left;
      pending, newDocs, succeeded, failed := TakeFile(t, rev, shape, reuse, files, done, name, pending, newDocs, succeeded, failed);
      left := left - {name};
      assert files.Keys - left == done + {name};
    }
    assert files.Keys - left == files.Keys;
  }

  /** One turn of that loop. */
  method TakeFile(t: Tools, rev: int, shape: Shape, reuse: Reuse, files: map<Name, Data>, ghost done: set<Name>, name: Name,
                  pending: map<Name, Doc>, newDocs: set<Name>, succeeded: nat, failed: nat)
    returns (pending': map<Name, Doc>, newDocs': set<Name>, succeeded': nat, failed': nat)
    requires done <= files.Keys && name in files && name !in done
    requires pending == PendingRows(t, rev, shape, reuse, files, done) && newDocs == NewlyCut(t, rev, shape, reuse, files, done)
    requires succeeded == |Readable(pending)| && failed == |Unreadable(pending)|
    ensures pending' == PendingRows(t, rev, shape, reuse, files, done + {name}) && newDocs' == NewlyCut(t, rev, shape, reuse, files, done + {name})
    ensures succeeded' == |Readable(pending')| && failed' == |Unreadable(pending')|
  {
    var doc, cutNow := ParseFile(t, rev, shape, reuse, name, files[name]);
    PendingStep(t, rev, shape, reuse, files, done, name);
    ReadableStep(pending, name, doc);
    UnreadableStep(pending, name, doc);
    pending' := pending[name := doc];
    newDocs' := if cutNow then newDocs + {name} else newDocs;
    succeeded', failed' := if doc.Chunked? then succeeded + 1 else succeeded, if doc.Chunked? then failed else failed + 1;
  }

  lemma PendingStep(t: Tools, rev: int, shape: Shape, reuse: Reuse, files: map<Name, Data>, done: set<Name>, name: Name)
    requires done <= files.Keys && name in files
    ensures PendingRows(t, rev, shape, reuse, files, done + {name})
         == PendingRows(t, rev, shape, reuse, files, done)[name := PendingRow(t, rev, shape, reuse, name, files[name])]
    ensures NewlyCut(t, rev, shape, reuse, files, done + {name}) == NewlyCut(t, rev, shape, reuse, files, done)
         + (if !Carries(reuse, name, t.hash(files[name])) && FreshDoc(t, rev, shape, name, files[name]).Chunked? then {name} else {})
  {}

  lemma ReadableStep(rows: map<Name, Doc>, name: Name, doc: Doc)
    requires name !in rows
    ensures |Readable(rows[name := doc])| == |Readable(rows)| + (if doc.Chunked? then 1 else 0)
  {
    if doc.Chunked? {
      assert Readable(rows[name := doc]) == Readable(rows) + {name};
    } else {
      assert Readable(rows[name := doc]) == Readable(rows);
    }
  }

  lemma UnreadableStep(rows: map<Name, Doc>, name: Name, doc: Doc)
    requires name !in rows
    ensures |Unreadable(rows[name := doc])| == |Unreadable(rows)| + (if doc.Failed? then 1 else 0)
  {
    if doc.Failed? {
      assert Unreadable(rows[name := doc]) == Unreadable(rows) + {name};
    } else {
      assert Unreadable(rows[name := doc]) == Unreadable(rows);
    }
  }

  /** Writing the vectors of the newly cut documents, and of no other. */
  method EmbedNew(t: Tools, rev: int, shape: Shape, reuse: Reuse, files: map<Name, Data>, cutRows: map<Name, Doc>, newDocs: set<Name>)
    returns (rows: map<Name, Doc>)
    requires Embeds(shape.kbType)
    requires cutRows == PendingRows(t, rev, shape, reuse, files, files.Keys)
    requires newDocs == NewlyCut(t, rev, shape, reuse, files, files.Keys)
    ensures rows == Rows(t, rev, shape, reuse, files)
  {
    rows := cutRows;
    var todo := newDocs;
    while todo != {}
      invariant todo <= newDocs && rows.Keys == files.Keys
      invariant forall n :: n in todo ==> rows[n] == cutRows[n]
      invariant forall n :: n in files && n !in todo ==> rows[n] == RowFor(t, rev, shape, reuse, n, files[n])
      decreases todo
    {
      var name :| name in todo;
      todo := todo - {name};
      var filled := FillVectors(t, shape, rows[name]);
      assert filled == FreshDoc(t, rev, shape, name, files[name]) by {
        var d := FreshDoc(t, rev, shape, name, files[name]);
        assert forall i :: 0 <= i < |d.chunks| ==> filled.chunks[i] == d.chunks[i];
        assert filled.chunks == d.chunks;
      }
      rows := rows[name := filled];
    }
  }

  /** The whole job: the file loop, then one embedding call over the newly cut chunks only. */
  method RunIngestionJob(t: Tools, rev: int, shape: Shape, reuse: Reuse, files: map<Name, Data>, embedOk: bool)
    returns (out: Outcome)
    ensures out == Outcomes(t, rev, shape, reuse, files, embedOk)
  {
    var rows, newDocs, succeeded, failed := ParseFiles(t, rev, shape, reuse, files);
    ReadableBeforeAndAfter(t, rev, shape, reuse, files);
    if Embeds(shape.kbType) && newDocs != {} {
      assert newDocs == Embedded(t, rev, shape, reuse, files);
      if !embedOk {
        return EmbeddingFailed;
      }
      rows := EmbedNew(t, rev, shape, reuse, files, rows, newDocs);
    } else {
      if Embeds(shape.kbType) {
        assert Embedded(t, rev, shape, reuse, files) == newDocs;
      } else {
        assert Embedded(t, rev, shape, reuse, files) == {};
      }
      assert rows == Rows(t, rev, shape, reuse, files) by {
        forall n | n in files ensures rows[n] == RowFor(t, rev, shape, reuse, n, files[n]) {
          if !Embeds(shape.kbType) { UnembeddedIsFresh(t, rev, shape, n, files[n]); }
          assert n in newDocs || Carries(reuse, n, t.hash(files[n])) || FreshDoc(t, rev, shape, n, files[n]).Failed?;
        }
      }
    }
    out := Written(rows, succeeded, failed, Readable(rows) != {});
  }

  lemma ReadableBeforeAndAfter(t: Tools, rev: int, shape: Shape, reuse: Reuse, files: map<Name, Data>)
    ensures var a, b := PendingRows(t, rev, shape, reuse, files, files.Keys), Rows(t, rev, shape, reuse, files);
            Readable(a) == Readable(b) && Unreadable(a) == Unreadable(b)
  {}

  lemma UnembeddedIsFresh(t: Tools, rev: int, shape: Shape, name: Name, data: Data)
    requires !Embeds(shape.kbType)
    ensures Unembedded(FreshDoc(t, rev, shape, name, data)) == FreshDoc(t, rev, shape, name, data)
  {}
}

/**
 * The OData requests one document costs, in the two upload modes. In discrete mode
 * (`ImportSingleDocument`) each request is sent on its own and later requests address the
 * entities earlier ones returned. In batch mode (`ImportDocumentsBatch`) every request of every
 * document goes into one `ODataBatch`, and the requests address each other through the negative
 * temporary ids `AddDocumentToBatch` assigns. The requests are modelled as values; sending them
 * is not.
 */
module Operations {
  import opened Wrappers
  import opened Documents

  /** How a request addresses an entity: the one returned by an earlier request, or a temporary id of the batch. */
  datatype EntityRef =
    | Returned(step: nat)  // the entity the request at position `step` created
    | TempId(id: int)      // the entity created with this `Id` earlier in the same batch

  /** One `InsertEntryAsync` request. */
  datatype Operation =
    | InsertDocument(name: string, id: Option<int>)
      // the document itself, `Name = FullName`, with a temporary `Id` in a batch
    | InsertVersion(document: EntityRef, id: Option<int>, number: Option<int>, application: int)
      // a version under `document`, with the associated application drawn for it
    | InsertBody(document: EntityRef, version: EntityRef, body: seq<Byte>)
      // the body of `version` of `document`

  /** The temporary id a request gives the entity it creates, if any. */
  function DeclaredId(op: Operation): Option<int> {
    match op
    case InsertDocument(_, id) => id
    case InsertVersion(_, id, _, _) => id
    case InsertBody(_, _, _) => None
  }

  // ---------------------------------------------------------------------------------------------
  // Discrete mode

  /**
   * `FillBody`: nothing for an empty body; otherwise a version under the document created at
   * `documentStep` and then the body of that version. `application` is the value
   * `AssociatedApplications.GetRandomId()` returned.
   */
  function FillBody(info: DocumentInfo, documentStep: nat, application: int): seq<Operation> {
    if |info.body| == 0 then []
    else [InsertVersion(Returned(documentStep), None, None, application),
          InsertBody(Returned(documentStep), Returned(documentStep + 1), info.body)]
  }

  /** `ImportSingleDocument`: `CreateDocument` (the document named by its full name), then `FillBody`. */
  function SingleDocumentOperations(info: DocumentInfo, application: int): seq<Operation> {
    [InsertDocument(info.fullName, None)] + FillBody(info, 0, application)
  }

  // ---------------------------------------------------------------------------------------------
  // Batch mode

  /** `AddDocumentToBatch` for the document at 1-based position `index`: ids `-2 * index + 1` and `-2 * index`. */
  function AddDocumentToBatch(info: DocumentInfo, index: int, application: int): seq<Operation> {
    var docId := -2 * index + 1;
    var versionId := -2 * index;
    [InsertDocument(info.fullName, Some(docId)),
     InsertVersion(TempId(docId), Some(versionId), Some(1), application),
     InsertBody(TempId(docId), TempId(versionId), info.body)]
  }

  /**
   * The contents of the batch for `infos`: each document added in order with its 1-based index.
   * `application(index)` is the application drawn for the document at that index.
   */
  function BatchOperations(infos: seq<DocumentInfo>, application: nat -> int): seq<Operation> {
    if |infos| == 0 then [] else
      var n := |infos|;
      BatchOperations(infos[..n - 1], application) + AddDocumentToBatch(infos[n - 1], n, application(n))
  }

  /** `ImportDocumentsBatch`: count the documents with `index` and add each one to the batch. */
  method ImportDocumentsBatch(documentInfos: seq<DocumentInfo>, application: nat -> int) returns (batch: seq<Operation>)
    ensures batch == BatchOperations(documentInfos, application)
  {
    batch := [];
    var index := 0;
    for i := 0 to |documentInfos|
      invariant index == i
      invariant batch == BatchOperations(documentInfos[..i], application)
    {
      index := index + 1;
      batch := batch + AddDocumentToBatch(documentInfos[i], index, application(index));
      assert documentInfos[..i + 1][..i] == documentInfos[..i];
    }
    assert documentInfos[..|documentInfos|] == documentInfos;
  }

  // ---------------------------------------------------------------------------------------------
  // Shape of the batch

  /**
   * Document `k` (0-based) of a batch occupies the requests `3k`, `3k + 1` and `3k + 2`: its
   * document with id `-2k - 1`, its version number 1 with id `-2k - 2`, and its body.
   */
  lemma {:induction false} BatchOperationsAt(infos: seq<DocumentInfo>, application: nat -> int, k: nat)
    requires k < |infos|
    ensures |BatchOperations(infos, application)| == 3 * |infos|
    ensures BatchOperations(infos, application)[3 * k] == InsertDocument(infos[k].fullName, Some(-2 * k - 1))
    ensures BatchOperations(infos, application)[3 * k + 1]
         == InsertVersion(TempId(-2 * k - 1), Some(-2 * k - 2), Some(1), application(k + 1))
    ensures BatchOperations(infos, application)[3 * k + 2] == InsertBody(TempId(-2 * k - 1), TempId(-2 * k - 2), infos[k].body)
    decreases |infos|
  {
    var n := |infos|;
    var prefix := infos[..n - 1];
    if k < n - 1 {
      BatchOperationsAt(prefix, application, k);
      assert prefix[k] == infos[k];
    } else if n > 1 {
      BatchOperationsAt(prefix, application, 0);
    }
  }

  /** A batch of `n` documents holds `3n` requests, whatever the bodies (empty ones too). */
  lemma BatchLength(infos: seq<DocumentInfo>, application: nat -> int)
    ensures |BatchOperations(infos, application)| == 3 * |infos|
  {
    if |infos| > 0 {
      BatchOperationsAt(infos, application, 0);
    }
  }

  /**
   * The temporary ids of a batch, in request order, are `-1, -2, -3, ...`: request `p` declares
   * one exactly when it is not a body, and that id is `-(2 * (p / 3) + p % 3 + 1)`.
   */
  lemma BatchDeclaredIds(infos: seq<DocumentInfo>, application: nat -> int, p: nat)
    requires p < |BatchOperations(infos, application)|
    ensures DeclaredId(BatchOperations(infos, application)[p]).Some? <==> p % 3 != 2
    ensures p % 3 != 2 ==> DeclaredId(BatchOperations(infos, application)[p]) == Some(-(2 * (p / 3) + p % 3 + 1))
  {
    BatchLength(infos, application);
    BatchOperationsAt(infos, application, p / 3);
  }

  /** No two requests of a batch declare the same temporary id, and every one is negative. */
  lemma BatchIdsDistinct(infos: seq<DocumentInfo>, application: nat -> int, p: nat, q: nat)
    requires p < q < |BatchOperations(infos, application)|
    requires DeclaredId(BatchOperations(infos, application)[p]).Some?
    ensures DeclaredId(BatchOperations(infos, application)[p]).value < 0
    ensures DeclaredId(BatchOperations(infos, application)[p]) != DeclaredId(BatchOperations(infos, application)[q])
  {
    BatchDeclaredIds(infos, application, p);
    BatchDeclaredIds(infos, application, q);
  }

  // ---------------------------------------------------------------------------------------------
  // References resolve

  /** The request at `q` creates the entity `r` names. */
  predicate Names(ops: seq<Operation>, q: nat, r: EntityRef)
    requires q < |ops|
  {
    match r
    case Returned(step) => q == step
    case TempId(id) => DeclaredId(ops[q]) == Some(id)
  }

  /** `r` names a document that a request before `p` creates. */
  ghost predicate DocumentBefore(ops: seq<Operation>, p: nat, r: EntityRef)
    requires p <= |ops|
  {
    exists q :: 0 <= q < p && Names(ops, q, r) && ops[q].InsertDocument?
  }

  /** `v` names a version of the document `d` that a request before `p` creates. */
  ghost predicate VersionBefore(ops: seq<Operation>, p: nat, v: EntityRef, d: EntityRef)
    requires p <= |ops|
  {
    exists q :: 0 <= q < p && Names(ops, q, v) && ops[q].InsertVersion? && ops[q].document == d
  }

  /** Every version addresses a document created before it, every body a version of its document created before it. */
  ghost predicate ReferencesResolve(ops: seq<Operation>) {
    forall p :: 0 <= p < |ops| ==> Resolves(ops, p)
  }

  /** The entities the request at `p` addresses were created before it. */
  ghost predicate Resolves(ops: seq<Operation>, p: nat)
    requires p < |ops|
  {
    match ops[p]
    case InsertDocument(_, _) => true
    case InsertVersion(d, _, _, _) => DocumentBefore(ops, p, d)
    case InsertBody(d, v, _) => DocumentBefore(ops, p, d) && VersionBefore(ops, p, v, d)
  }

  /** In discrete mode the version and the body address the document and version returned just before. */
  lemma SingleDocumentResolves(info: DocumentInfo, application: int)
    ensures ReferencesResolve(SingleDocumentOperations(info, application))
  {
    var ops := SingleDocumentOperations(info, application);
    if |info.body| > 0 {
      assert Names(ops, 0, Returned(0)) && ops[0].InsertDocument?;
      assert DocumentBefore(ops, 1, Returned(0));
      assert DocumentBefore(ops, 2, Returned(0));
      assert Names(ops, 1, Returned(1)) && ops[1].InsertVersion? && ops[1].document == Returned(0);
      assert VersionBefore(ops, 2, Returned(1), Returned(0));
    }
  }

  /** In a batch every temporary id a request uses was declared, by the right kind of request, earlier in the batch. */
  lemma BatchResolves(infos: seq<DocumentInfo>, application: nat -> int)
    ensures ReferencesResolve(BatchOperations(infos, application))
  {
    var ops := BatchOperations(infos, application);
    BatchLength(infos, application);
    forall p | 0 <= p < |ops|
      ensures Resolves(ops, p)
    {
      var k := p / 3;
      BatchOperationsAt(infos, application, k);
      assert Names(ops, 3 * k, TempId(-2 * k - 1)) && ops[3 * k].InsertDocument?;
      if p % 3 == 1 {
        assert DocumentBefore(ops, p, TempId(-2 * k - 1));
      } else if p % 3 == 2 {
        assert DocumentBefore(ops, p, TempId(-2 * k - 1));
        assert Names(ops, 3 * k + 1, TempId(-2 * k - 2));
        assert VersionBefore(ops, p, TempId(-2 * k - 2), TempId(-2 * k - 1));
      }
    }
  }

  // ---------------------------------------------------------------------------------------------
  // What reaches the server

  /** The names of the documents the requests create, in order. */
  function DocumentNames(ops: seq<Operation>): seq<string> {
    if |ops| == 0 then []
    else (if ops[0].InsertDocument? then [ops[0].name] else []) + DocumentNames(ops[1..])
  }

  /** The bodies the requests upload, in order. */
  function Bodies(ops: seq<Operation>): seq<seq<Byte>> {
    if |ops| == 0 then []
    else (if ops[0].InsertBody? then [ops[0].body] else []) + Bodies(ops[1..])
  }

  lemma {:induction false} DocumentNamesAppend(a: seq<Operation>, b: seq<Operation>)
    ensures DocumentNames(a + b) == DocumentNames(a) + DocumentNames(b)
  {
    if |a| > 0 {
      assert (a + b)[1..] == a[1..] + b;
      DocumentNamesAppend(a[1..], b);
    } else {
      assert a + b == b;
    }
  }

  lemma {:induction false} BodiesAppend(a: seq<Operation>, b: seq<Operation>)
    ensures Bodies(a + b) == Bodies(a) + Bodies(b)
  {
    if |a| > 0 {
      assert (a + b)[1..] == a[1..] + b;
      BodiesAppend(a[1..], b);
    } else {
      assert a + b == b;
    }
  }

  function FullNames(infos: seq<DocumentInfo>): (names: seq<string>)
    ensures |names| == |infos| && forall i :: 0 <= i < |infos| ==> names[i] == infos[i].fullName
  {
    seq(|infos|, i requires 0 <= i < |infos| => infos[i].fullName)
  }

  function AllBodies(infos: seq<DocumentInfo>): (bodies: seq<seq<Byte>>)
    ensures |bodies| == |infos| && forall i :: 0 <= i < |infos| ==> bodies[i] == infos[i].body
  {
    seq(|infos|, i requires 0 <= i < |infos| => infos[i].body)
  }

  /** A batch creates every document, in order, and uploads every body, in order, the empty ones included. */
  lemma {:induction false} BatchCarriesDocuments(infos: seq<DocumentInfo>, application: nat -> int)
    ensures DocumentNames(BatchOperations(infos, application)) == FullNames(infos)
    ensures Bodies(BatchOperations(infos, application)) == AllBodies(infos)
    decreases |infos|
  {
    var n := |infos|;
    if n > 0 {
      var prefix := infos[..n - 1];
      var added := AddDocumentToBatch(infos[n - 1], n, application(n));
      BatchCarriesDocuments(prefix, application);
      DocumentNamesAppend(BatchOperations(prefix, application), added);
      BodiesAppend(BatchOperations(prefix, application), added);
      CarriedByThree(added);
      assert FullNames(infos) == FullNames(prefix) + [infos[n - 1].fullName];
      assert AllBodies(infos) == AllBodies(prefix) + [infos[n - 1].body];
    }
  }

  /**
   * In discrete mode a document costs one request when its body is empty and three otherwise;
   * it creates the document and uploads the body only when there is one.
   */
  lemma SingleDocumentCarries(info: DocumentInfo, application: int)
    ensures |FillBody(info, 0, application)| == if |info.body| == 0 then 0 else 2
    ensures |SingleDocumentOperations(info, application)| == if |info.body| == 0 then 1 else 3
    ensures DocumentNames(SingleDocumentOperations(info, application)) == [info.fullName]
    ensures Bodies(SingleDocumentOperations(info, application)) == if |info.body| == 0 then [] else [info.body]
  {
    var ops := SingleDocumentOperations(info, application);
    if |info.body| == 0 {
      assert ops == [InsertDocument(info.fullName, None)];
      assert ops[1..] == [];
    } else {
      CarriedByThree(ops);
    }
  }

  /** What three requests carry: the name of each document and the body of each body, in order. */
  lemma CarriedByThree(ops: seq<Operation>)
    requires |ops| == 3
    ensures DocumentNames(ops) == DocumentNames([ops[0]]) + DocumentNames([ops[1]]) + DocumentNames([ops[2]])
    ensures Bodies(ops) == Bodies([ops[0]]) + Bodies([ops[1]]) + Bodies([ops[2]])
  {
    assert ops == [ops[0]] + [ops[1]] + [ops[2]];
    DocumentNamesAppend([ops[0]] + [ops[1]], [ops[2]]);
    DocumentNamesAppend([ops[0]], [ops[1]]);
    BodiesAppend([ops[0]] + [ops[1]], [ops[2]]);
    BodiesAppend([ops[0]], [ops[1]]);
  }
}

/**
 * The values a BasicDB collection is made of: documents, the backing file
 * and the outcomes of the store's operations, together with the functions
 * that specify reading, writing, filtering and lookup by identifier.
 */
module Collection {

  /** A schema-less record: field name to value. */
  type Doc = map<string, string>

  /** The reserved field holding a document's identifier. */
  const IdKey: string := "_id"

  datatype Option<T> = None | Some(value: T)

  /** The exceptions the store raises or lets through. */
  datatype Error =
    | ValueError  // a non-dictionary passed to create; list.index on an absent value
    | KeyError    // a stored document without an "_id" field met by a lookup
    | IOError     // the collection file could not be written

  datatype Result<T> = Ok(value: T) | Err(error: Error)

  /** What the collection file holds, as far as the store can tell when reading it. */
  datatype FileState =
    | Missing                  // no file at the path
    | Corrupt                  // a file whose text does not parse as JSON
    | Stored(docs: seq<Doc>)   // a JSON array of objects

  /**
   * How an attempt to write the file ends: it succeeds, the file cannot be
   * opened for writing (its old content stays), or the write breaks off after
   * opening has truncated it (what is left does not parse).
   */
  datatype WriteFault = NoFault | OpenFails | DumpFails

  /** The argument of create: a dictionary, or any other value. */
  datatype Payload = Dict(fields: Doc) | NonDict

  /** The collection that reading the file yields: a missing or unparsable file reads as empty. */
  function Documents(f: FileState): seq<Doc> {
    if f.Stored? then f.docs else []
  }

  /** The file after an attempt to overwrite it with `docs`. */
  function Written(f: FileState, docs: seq<Doc>, fault: WriteFault): FileState {
    match fault
    case NoFault => Stored(docs)
    case OpenFails => f
    case DumpFails => Corrupt
  }

  /** A write that succeeds is read back exactly; one that breaks off reads back as empty. */
  lemma ReadBackAfterWrite(f: FileState, docs: seq<Doc>, fault: WriteFault)
    ensures fault == NoFault ==> Documents(Written(f, docs, fault)) == docs
    ensures fault == OpenFails ==> Documents(Written(f, docs, fault)) == Documents(f)
    ensures fault == DumpFails ==> Documents(Written(f, docs, fault)) == []
  {
  }

  /** `doc` with its identifier set to `id`, whatever identifier it carried before. */
  function Stamp(doc: Doc, id: string): (r: Doc)
    ensures IdKey in r && r[IdKey] == id
    ensures r.Keys == doc.Keys + {IdKey}
    ensures forall k :: k in doc && k != IdKey ==> r[k] == doc[k]
  {
    doc[IdKey := id]
  }

  // ---------------------------------------------------------------------
  // Equality filters

  /** Every field of the query is present in `doc` with an equal value. */
  predicate Matches(doc: Doc, query: Doc) {
    forall k :: k in query ==> k in doc && doc[k] == query[k]
  }

  /** The documents matching `query`, in storage order. */
  function Filter(docs: seq<Doc>, query: Doc): (r: seq<Doc>)
    ensures |r| <= |docs|
    ensures forall i :: 0 <= i < |r| ==> Matches(r[i], query)
  {
    if docs == [] then []
    else (if Matches(docs[0], query) then [docs[0]] else []) + Filter(docs[1..], query)
  }

  /** A document is in the filtered collection exactly when it is stored and matches. */
  lemma {:induction false} FilterMembership(docs: seq<Doc>, query: Doc, d: Doc)
    ensures d in Filter(docs, query) <==> d in docs && Matches(d, query)
  {
    if docs != [] {
      FilterMembership(docs[1..], query, d);
      assert docs == [docs[0]] + docs[1..];
    }
  }

  /** Filtering keeps storage order: it distributes over concatenation. */
  lemma {:induction false} FilterAppend(a: seq<Doc>, b: seq<Doc>, query: Doc)
    ensures Filter(a + b, query) == Filter(a, query) + Filter(b, query)
  {
    if a == [] {
      assert a + b == b;
    } else {
      assert (a + b)[0] == a[0];
      assert (a + b)[1..] == a[1..] + b;
      FilterAppend(a[1..], b, query);
    }
  }

  /** When every document matches, the filter returns the collection unchanged. */
  lemma {:induction false} FilterAllMatch(docs: seq<Doc>, query: Doc)
    requires forall i :: 0 <= i < |docs| ==> Matches(docs[i], query)
    ensures Filter(docs, query) == docs
  {
    if docs != [] {
      FilterAllMatch(docs[1..], query);
    }
  }

  /** The empty query matches every document. */
  lemma EmptyQueryMatchesAll(docs: seq<Doc>)
    ensures Filter(docs, map[]) == docs
  {
  }

  /** Nothing matches exactly when no stored document matches. */
  lemma FilterEmpty(docs: seq<Doc>, query: Doc)
    ensures Filter(docs, query) == [] <==> forall i :: 0 <= i < |docs| ==> !Matches(docs[i], query)
  {
  }

  // ---------------------------------------------------------------------
  // Identifiers

  predicate HasId(doc: Doc, id: string) {
    IdKey in doc && doc[IdKey] == id
  }

  /** Every stored document carries an identifier field. */
  predicate AllHaveIds(docs: seq<Doc>) {
    forall i :: 0 <= i < |docs| ==> IdKey in docs[i]
  }

  /** The identifiers of the documents, in storage order. */
  function Ids(docs: seq<Doc>): seq<string>
    requires AllHaveIds(docs)
  {
    seq(|docs|, i requires 0 <= i < |docs| => docs[i][IdKey])
  }

  /** No identifier occurs twice: the store's intended invariant on a persisted collection. */
  predicate UniqueIds(docs: seq<Doc>) {
    AllHaveIds(docs) &&
    forall i, j :: 0 <= i < j < |docs| ==> docs[i][IdKey] != docs[j][IdKey]
  }

  /** Position of the last document whose identifier is `id` (last match wins). */
  function LastIndexWithId(docs: seq<Doc>, id: string): (r: Option<nat>)
    ensures r.Some? ==> r.value < |docs| && HasId(docs[r.value], id)
    ensures r.Some? ==> forall j :: r.value < j < |docs| ==> !HasId(docs[j], id)
    ensures r.None? <==> forall j :: 0 <= j < |docs| ==> !HasId(docs[j], id)
  {
    if docs == [] then None
    else if HasId(docs[|docs| - 1], id) then Some(|docs| - 1)
    else LastIndexWithId(docs[..|docs| - 1], id)
  }

  /** The document find_by_id reports for `id`. */
  function LastWithId(docs: seq<Doc>, id: string): (r: Option<Doc>)
    ensures r.None? <==> LastIndexWithId(docs, id).None?
    ensures r.Some? ==> r.value == docs[LastIndexWithId(docs, id).value]
  {
    match LastIndexWithId(docs, id)
    case None => None
    case Some(i) => Some(docs[i])
  }

  /** Position of the first document structurally equal to `d` (what list.index finds). */
  function FirstIndexOf(docs: seq<Doc>, d: Doc): (r: nat)
    requires d in docs
    ensures r < |docs| && docs[r] == d
    ensures forall j :: 0 <= j < r ==> docs[j] != d
  {
    if docs[0] == d then 0 else 1 + FirstIndexOf(docs[1..], d)
  }

  /** The collection with the document at position `k` taken out. */
  function RemoveAt(docs: seq<Doc>, k: nat): (r: seq<Doc>)
    requires k < |docs|
    ensures |r| == |docs| - 1
    ensures forall j :: 0 <= j < k ==> r[j] == docs[j]
    ensures forall j :: k <= j < |r| ==> r[j] == docs[j + 1]
  {
    docs[..k] + docs[k + 1..]
  }

  /**
   * The collection a successful update writes: the first document equal to
   * the one find_by_id reports becomes `update` stamped with `id`.
   */
  function Updated(docs: seq<Doc>, id: string, update: Doc): (r: seq<Doc>)
    requires LastWithId(docs, id).Some?
    ensures |r| == |docs|
    ensures var k := FirstIndexOf(docs, LastWithId(docs, id).value);
      r[k] == Stamp(update, id) && forall j :: 0 <= j < |r| && j != k ==> r[j] == docs[j]
  {
    docs[FirstIndexOf(docs, LastWithId(docs, id).value) := Stamp(update, id)]
  }

  /** The collection a successful corrected delete writes: the first document equal to the found one is taken out. */
  function Deleted(docs: seq<Doc>, id: string): (r: seq<Doc>)
    requires LastWithId(docs, id).Some?
    ensures |r| == |docs| - 1
    ensures var k := FirstIndexOf(docs, LastWithId(docs, id).value);
      (forall j :: 0 <= j < k ==> r[j] == docs[j]) && (forall j :: k <= j < |r| ==> r[j] == docs[j + 1])
  {
    RemoveAt(docs, FirstIndexOf(docs, LastWithId(docs, id).value))
  }
}

/**
 * Properties relating the store's operations to one another, stated on the
 * collections the operations leave in the file: what create, update and the
 * corrected delete do to the identifiers, and what find_by_id sees afterwards.
 */
module Lifecycle {
  import opened Collection

  /** A document just created is what find_by_id returns for its identifier. */
  lemma CreatedIsFound(docs: seq<Doc>, fields: Doc, freshId: string)
    requires AllHaveIds(docs)
    ensures AllHaveIds(docs + [Stamp(fields, freshId)])
    ensures LastWithId(docs + [Stamp(fields, freshId)], freshId) == Some(Stamp(fields, freshId))
  {
  }

  /** With an identifier nobody uses yet, create keeps every identifier unique. */
  lemma CreateKeepsIdsUnique(docs: seq<Doc>, fields: Doc, freshId: string)
    requires UniqueIds(docs)
    requires forall i :: 0 <= i < |docs| ==> docs[i][IdKey] != freshId
    ensures UniqueIds(docs + [Stamp(fields, freshId)])
  {
  }

  /** Under unique identifiers, a document is the only one structurally equal to itself. */
  lemma UniqueFirstIndex(docs: seq<Doc>, i: nat)
    requires UniqueIds(docs) && i < |docs|
    ensures FirstIndexOf(docs, docs[i]) == i
  {
  }

  /** Update replaces a document by one with the same identifier: the identifiers stay as they were. */
  lemma UpdateKeepsIds(docs: seq<Doc>, id: string, update: Doc)
    requires AllHaveIds(docs) && LastWithId(docs, id).Some?
    ensures AllHaveIds(Updated(docs, id, update))
    ensures Ids(Updated(docs, id, update)) == Ids(docs)
    ensures UniqueIds(docs) ==> UniqueIds(Updated(docs, id, update))
  {
  }

  /**
   * Under unique identifiers the update lands on the position find_by_id
   * found, changes nothing else, and find_by_id then reports the new document.
   */
  lemma UpdatedIsFound(docs: seq<Doc>, id: string, update: Doc)
    requires UniqueIds(docs) && LastWithId(docs, id).Some?
    ensures var i := LastIndexWithId(docs, id).value;
      Updated(docs, id, update) == docs[i := Stamp(update, id)]
    ensures LastWithId(Updated(docs, id, update), id) == Some(Stamp(update, id))
  {
  }

  /**
   * Under duplicate identifiers the update can be invisible: with two equal
   * documents, the first is replaced while find_by_id keeps reporting the
   * second.
   */
  lemma UpdateHiddenByDuplicate()
    ensures var a := map[IdKey := "x"];
      var u := map["title" := "B"];
      LastWithId([a, a], "x") == Some(a) &&
      Updated([a, a], "x", u) == [Stamp(u, "x"), a] &&
      LastWithId(Updated([a, a], "x", u), "x") == Some(a)
  {
  }

  /**
   * Under unique identifiers the corrected delete removes exactly the found
   * document: one fewer, the rest in their order, the identifier gone and the
   * others still unique.
   */
  lemma DeletedIsGone(docs: seq<Doc>, id: string)
    requires UniqueIds(docs) && LastWithId(docs, id).Some?
    ensures Deleted(docs, id) == RemoveAt(docs, LastIndexWithId(docs, id).value)
    ensures UniqueIds(Deleted(docs, id))
    ensures LastWithId(Deleted(docs, id), id) == None
  {
  }

  /** The equality-filter example: one field selects two documents, two fields select none. */
  lemma FilterExample()
    ensures var d1 := map[IdKey := "1", "genre" := "sf"];
      var d2 := map[IdKey := "2", "genre" := "drama"];
      var d3 := map[IdKey := "3", "genre" := "sf"];
      Filter([d1, d2, d3], map["genre" := "sf"]) == [d1, d3] &&
      Filter([d1, d2, d3], map["genre" := "sf", IdKey := "2"]) == []
  {
    var d1 := map[IdKey := "1", "genre" := "sf"];
    var d2 := map[IdKey := "2", "genre" := "drama"];
    var d3 := map[IdKey := "3", "genre" := "sf"];
    var q := map["genre" := "sf"];
    assert Matches(d1, q) && Matches(d3, q);
    assert d2["genre"] != "sf";
    assert !Matches(d2, q);
    var q2 := map["genre" := "sf", IdKey := "2"];
    assert d1[IdKey] != "2" && d3[IdKey] != "2";
    assert !Matches(d1, q2) && !Matches(d3, q2);
    assert !Matches(d2, q2);
    assert [d1, d2, d3][1..] == [d2, d3];
    assert [d2, d3][1..] == [d3];
    assert Filter([d3], q) == [d3];
    assert Filter([d2, d3], q) == [d3];
    assert Filter([d3], q2) == [];
    assert Filter([d2, d3], q2) == [];
  }
}

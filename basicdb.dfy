/**
 * BasicDB: a named collection of documents kept as one JSON array in a file.
 * The object's state is what the backing file holds; every operation reads
 * the whole file, and the mutating ones overwrite it wholesale.
 *
 * Writing can fail: each state-changing method takes the `WriteFault` that
 * its write meets, and a failed write surfaces as `Err(IOError)`. The random
 * identifier `create` draws is a parameter, `freshId`.
 */
module BasicDb {
  import opened Collection
  import Paths

  /** list.index: the first position holding a value equal to `target`, or ValueError. */
  method IndexOf(docs: seq<Doc>, target: Doc) returns (r: Result<nat>)
    ensures target in docs ==> r == Ok(FirstIndexOf(docs, target))
    ensures target !in docs ==> r == Err(ValueError)
  {
    var i := 0;
    while i < |docs|
      invariant 0 <= i <= |docs|
      invariant forall j :: 0 <= j < i ==> docs[j] != target
    {
      if docs[i] == target {
        return Ok(i);
      }
      i := i + 1;
    }
    return Err(ValueError);
  }

  class BasicDB {
    const collectionName: string
    const baseDir: string
    const filePath: string

    /** The content of the file at `filePath`. */
    var file: FileState

    /** Derives the paths; `disk` is what the file system holds at `filePath`. */
    constructor (collectionName: string, rootDir: string, disk: FileState)
      ensures this.collectionName == collectionName
      ensures baseDir == Paths.BaseDir(rootDir)
      ensures filePath == Paths.FilePath(baseDir, collectionName)
      ensures file == disk
    {
      this.collectionName := collectionName;
      baseDir := Paths.BaseDir(rootDir);
      filePath := Paths.FilePath(Paths.BaseDir(rootDir), collectionName);
      file := disk;
    }

    method ReadAllDocuments() returns (docs: seq<Doc>)
      ensures docs == Documents(file)
    {
      match file
      case Stored(d) => docs := d;
      case Missing => docs := [];   // FileNotFoundError
      case Corrupt => docs := [];   // json.JSONDecodeError
    }

    method WriteAllDocuments(docs: seq<Doc>, fault: WriteFault) returns (r: Result<()>)
      modifies this
      ensures file == Written(old(file), docs, fault)
      ensures r == if fault == NoFault then Ok(()) else Err(IOError)
    {
      match fault
      case NoFault =>
        file := Stored(docs);
        r := Ok(());
      case OpenFails =>
        r := Err(IOError);
      case DumpFails =>
        file := Corrupt;
        r := Err(IOError);
    }

    /** Writes an empty collection when, and only when, there is no file yet. */
    method EnsureCollectionFileExists(fault: WriteFault) returns (r: Result<()>)
      modifies this
      ensures old(file) != Missing ==> file == old(file) && r == Ok(())
      ensures old(file) == Missing ==> file == Written(Missing, [], fault)
      ensures old(file) == Missing ==> r == if fault == NoFault then Ok(()) else Err(IOError)
    {
      if file == Missing {
        r := WriteAllDocuments([], fault);
      } else {
        r := Ok(());
      }
    }

    /** Appends `payload` stamped with the identifier `freshId` and persists the collection. */
    method Create(payload: Payload, freshId: string, fault: WriteFault) returns (r: Result<Doc>)
      modifies this
      ensures payload.NonDict? ==> r == Err(ValueError) && file == old(file)
      ensures payload.Dict? ==>
        file == Written(old(file), Documents(old(file)) + [Stamp(payload.fields, freshId)], fault)
      ensures payload.Dict? ==>
        r == if fault == NoFault then Ok(Stamp(payload.fields, freshId)) else Err(IOError)
    {
      if payload.NonDict? {
        return Err(ValueError);
      }
      var documents := ReadAllDocuments();
      var newDoc := payload.fields[IdKey := freshId];
      documents := documents + [newDoc];
      var w := WriteAllDocuments(documents, fault);
      if w.Err? {
        return Err(w.error);
      }
      return Ok(newDoc);
    }

    /**
     * Without a query, or with an empty one, the whole collection; otherwise
     * the documents matching every field of the query, or None when there are
     * none.
     */
    method Find(query: Option<Doc>) returns (r: Option<seq<Doc>>)
      ensures query == None || query == Some(map[]) ==> r == Some(Documents(file))
      ensures query != None && query != Some(map[]) ==>
        r == if Filter(Documents(file), query.value) == [] then None
             else Some(Filter(Documents(file), query.value))
    {
      var documents := ReadAllDocuments();
      if query.None? || query.value == map[] {
        return Some(documents);
      }
      var q := query.value;
      var results := [];
      var i := 0;
      while i < |documents|
        invariant 0 <= i <= |documents|
        invariant results == Filter(documents[..i], q)
      {
        var doc := documents[i];
        var queryBools := [];
        var done: set<string> := {};
        var keys := q.Keys;
        while keys != {}
          invariant keys + done == q.Keys && keys !! done
          invariant (false !in queryBools) <==> forall k :: k in done ==> k in doc && doc[k] == q[k]
          decreases keys
        {
          var key :| key in keys;
          if key in doc && doc[key] == q[key] {
            queryBools := queryBools + [true];
          } else {
            queryBools := queryBools + [false];
          }
          keys, done := keys - {key}, done + {key};
        }
        if false !in queryBools {
          results := results + [doc];
        }
        assert documents[..i + 1] == documents[..i] + [doc];
        FilterAppend(documents[..i], [doc], q);
        i := i + 1;
      }
      assert documents[..i] == documents;
      if results != [] {
        return Some(results);
      }
      return None;
    }

    /** The last document whose identifier is `id`; KeyError if a stored document has none. */
    method FindById(id: string) returns (r: Result<Option<Doc>>)
      ensures !AllHaveIds(Documents(file)) ==> r == Err(KeyError)
      ensures AllHaveIds(Documents(file)) ==> r == Ok(LastWithId(Documents(file), id))
    {
      var documents := ReadAllDocuments();
      var result: Option<Doc> := None;
      var i := 0;
      while i < |documents|
        invariant 0 <= i <= |documents|
        invariant AllHaveIds(documents[..i])
        invariant result == LastWithId(documents[..i], id)
      {
        var doc := documents[i];
        if IdKey !in doc {
          return Err(KeyError);
        }
        assert documents[..i + 1][..i] == documents[..i];
        if doc[IdKey] == id {
          result := Some(doc);
        }
        i := i + 1;
      }
      assert documents[..i] == documents;
      return Ok(result);
    }

    /**
     * Replaces, by `update` stamped with `id`, the first document equal to the
     * one find_by_id reports, and persists the collection. None, without a
     * write, when no document has that identifier.
     */
    method FindByIdAndUpdate(id: string, update: Doc, fault: WriteFault) returns (r: Result<Option<Doc>>)
      modifies this
      ensures !AllHaveIds(Documents(old(file))) ==> r == Err(KeyError) && file == old(file)
      ensures AllHaveIds(Documents(old(file))) && LastWithId(Documents(old(file)), id).None? ==>
        r == Ok(None) && file == old(file)
      ensures AllHaveIds(Documents(old(file))) && LastWithId(Documents(old(file)), id).Some? ==>
        file == Written(old(file), Updated(Documents(old(file)), id, update), fault) &&
        r == if fault == NoFault then Ok(Some(Stamp(update, id))) else Err(IOError)
    {
      var documents := ReadAllDocuments();
      var found := FindById(id);
      if found.Err? {
        return Err(found.error);
      }
      // a found document has an "_id" field, so it is never an empty (falsy) dict
      if found.value.None? {
        return Ok(None);
      }
      var doc := found.value.value;
      var idx := IndexOf(documents, doc);
      assert idx.Ok?;
      var stamped := update[IdKey := id];
      documents := documents[idx.value := stamped];
      var w := WriteAllDocuments(documents, fault);
      if w.Err? {
        return Err(w.error);
      }
      return Ok(Some(stamped));
    }

    /**
     * As the store has it: ValueError (from list.index) when no document has
     * the identifier; otherwise the document is popped from the list that was
     * read, and that list is never written back.
     */
    method FindByIdAndDelete(id: string) returns (r: Result<()>)
      ensures !AllHaveIds(Documents(file)) ==> r == Err(KeyError)
      ensures AllHaveIds(Documents(file)) ==>
        r == if LastWithId(Documents(file), id).None? then Err(ValueError) else Ok(())
    {
      var documents := ReadAllDocuments();
      var found := FindById(id);
      if found.Err? {
        return Err(found.error);
      }
      if found.value.None? {
        // documents.index(None): no stored document equals None
        return Err(ValueError);
      }
      var idx := IndexOf(documents, found.value.value);
      assert idx.Ok?;
      documents := RemoveAt(documents, idx.value);
      return Ok(());
    }

    /**
     * Delete as evidently intended: an unknown identifier is a no-op reported
     * as `Ok(false)`, and the list without the document is persisted.
     */
    method FindByIdAndDeleteCorrected(id: string, fault: WriteFault) returns (r: Result<bool>)
      modifies this
      ensures !AllHaveIds(Documents(old(file))) ==> r == Err(KeyError) && file == old(file)
      ensures AllHaveIds(Documents(old(file))) && LastWithId(Documents(old(file)), id).None? ==>
        r == Ok(false) && file == old(file)
      ensures AllHaveIds(Documents(old(file))) && LastWithId(Documents(old(file)), id).Some? ==>
        file == Written(old(file), Deleted(Documents(old(file)), id), fault) &&
        r == if fault == NoFault then Ok(true) else Err(IOError)
    {
      var documents := ReadAllDocuments();
      var found := FindById(id);
      if found.Err? {
        return Err(found.error);
      }
      if found.value.None? {
        return Ok(false);
      }
      var idx := IndexOf(documents, found.value.value);
      assert idx.Ok?;
      documents := RemoveAt(documents, idx.value);
      var w := WriteAllDocuments(documents, fault);
      if w.Err? {
        return Err(w.error);
      }
      return Ok(true);
    }
  }

  /**
   * Construction: derive the paths, then make sure the collection file exists.
   * `r` is Err when that setup write fails (the constructor raises); `db.file`
   * is then the state the failed write left behind.
   */
  method Open(collectionName: string, rootDir: string, disk: FileState, fault: WriteFault)
    returns (db: BasicDB, r: Result<()>)
    ensures fresh(db)
    ensures db.collectionName == collectionName
    ensures db.baseDir == Paths.BaseDir(rootDir)
    ensures db.filePath == Paths.FilePath(Paths.BaseDir(rootDir), collectionName)
    ensures disk != Missing ==> db.file == disk && r == Ok(())
    ensures disk == Missing ==> db.file == Written(Missing, [], fault)
    ensures disk == Missing ==> r == if fault == NoFault then Ok(()) else Err(IOError)
  {
    db := new BasicDB(collectionName, rootDir, disk);
    r := db.EnsureCollectionFileExists(fault);
  }

  /**
   * Deleting an existing document leaves it findable: the store's delete
   * never writes the shortened list back.
   */
  method DeleteThenFindById(db: BasicDB, id: string) returns (before: Result<Option<Doc>>, deleted: Result<()>, after: Result<Option<Doc>>)
    ensures before.Ok? && before.value.Some? ==> deleted == Ok(()) && after == before
  {
    before := db.FindById(id);
    deleted := db.FindByIdAndDelete(id);
    after := db.FindById(id);
  }
}

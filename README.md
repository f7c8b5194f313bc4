# BasicDB document store, modelled in Dafny

`BasicDB` is the small document store of a desktop library manager. It keeps a named
collection of schema-less records (string-keyed dictionaries) as one JSON array in the file
`join(join(dirname(root_dir), "data"), collection_name + ".json")`. Every operation reads the whole
file. `create` and `find_by_id_and_update` then overwrite the file with the whole list.

The model has four modules:

- `Paths` (`paths.dfy`) derives the path. `dirname` and `join` follow POSIX path rules:
  no separator at all, a root made only of separators, an absolute collection name.
- `Collection` (`collection.dfy`) holds the values: documents (`map<string, string>`), the file
  state (`Missing | Corrupt | Stored(docs)`), the error kinds (`ValueError`, `KeyError`,
  `IOError`), and the functions that specify reading, writing, equality filters, last-wins lookup
  by `_id` and `list.index`.
- `BasicDb` (`basicdb.dfy`) holds the class `BasicDB`. Its field `file` is the content of the
  backing file. Its methods follow the source step by step: the nested loops of `find`, the
  last-wins loop of `find_by_id`, and the re-location of the found document by structural
  equality in update and delete. Each method's `ensures` ties its result and the new file to
  the specification functions.
- `Lifecycle` (`lifecycle.dfy`) relates the operations to each other. A created document is
  found again. A fresh identifier keeps identifiers unique. Update keeps the identifiers. With
  unique identifiers, an update is seen by `find_by_id` and the corrected delete removes exactly
  one document. With duplicate identifiers, an update can be hidden.

Outside influences are parameters:

- The random identifier of `create` is `freshId`. Only the uniqueness lemma requires it to be
  unused.
- How a write ends is a `WriteFault`:
  - `NoFault`: the write succeeds.
  - `OpenFails`: the file cannot be opened and keeps its content.
  - `DumpFails`: the write breaks off after `open(..., "w")` truncated the file, so what is
    left does not parse.
  - Both failures surface as `Err(IOError)`.
- `Open` takes the state of the disk before construction.

## Model

| member | source | states |
|---|---|---|
| `Paths.RFind` | utils/database/basicdb.py:11 | the result is -1 or a position holding the character, and no later position holds it |
| `Paths.RStrip` | utils/database/basicdb.py:11 | the result is a prefix with no trailing separator, and everything cut off is separators |
| `Paths.Dirname` | utils/database/basicdb.py:11 | with `head` the path up to and including its last separator: a head made only of separators (or empty) is the result unchanged; otherwise the result is the head without its trailing separators, and not empty; after the result come only separators and then a final component with no separator |
| `Paths.Join` | utils/database/basicdb.py:11-12 | the second component ends the result; an absolute second component replaces the first; otherwise exactly one separator is put between them unless the first is empty or already ends in one |
| `Paths.BaseDir` | utils/database/basicdb.py:11 | the data directory is `dirname(root_dir)` followed by `data`, with one separator between them unless the dirname is empty or already ends in one |
| `Paths.FilePath` | utils/database/basicdb.py:12 | the file path, built from `base_dir`, ends in `.json`; it is `name + ".json"` for an absolute name, otherwise `base_dir + "/" + name + ".json"`, with no separator added when `base_dir` is empty or already ends in one |
| `Paths.FilePathOfBaseDir` | utils/database/basicdb.py:11-12 | the data directory never ends in a separator, so for a relative name the file is `base_dir + "/" + name + ".json"` |
| `Paths.DirnameOfFileInDirectory` | utils/database/basicdb.py:11 | for a root `dir/name` (a file in a directory), the directory part is `dir` |
| `Paths.BaseDirInDirectory` | utils/database/basicdb.py:11 | for such a root the data directory is `dir + "/data"` |
| `Paths.FilePathInDirectory` | utils/database/basicdb.py:11-12 | for such a root and a relative collection name the file is `dir + "/data/" + name + ".json"` |
| `Collection.Documents` | utils/database/basicdb.py:25-31 | the collection `_read_all_documents` returns: a stored array, or empty for a missing or unparsable file; `ReadAllDocuments` is proved to return it and `ReadBackAfterWrite` relates it to `Written` |
| `Collection.Written` | utils/database/basicdb.py:33-40 | what `_write_all_documents` leaves in the file for each write outcome: the list, the old content, or a truncated unparsable file; `ReadBackAfterWrite` states what each reads back as |
| `Collection.Matches` | utils/database/basicdb.py:84-89 | the `all(query_bools)` test: every query field is present in the document with an equal value; `FilterMembership` ties it to the filter's result |
| `Collection.Filter` | utils/database/basicdb.py:81-90 | the matching documents in storage order, defined by recursion; every document in the result matches and the result is no longer than the collection; `FilterMembership` and `FilterAppend` state what it means |
| `Collection.ReadBackAfterWrite` | utils/database/basicdb.py:25-40 | a successful write reads back exactly; a write that cannot open leaves the old reading; a truncated write reads back as the empty collection |
| `Collection.Stamp` | utils/database/basicdb.py:60-61 | the stamped document has `_id` = the new identifier (whatever `_id` it had before), the same other fields and the same values |
| `Collection.FilterMembership` | utils/database/basicdb.py:81-90 | a document is in the filter's result exactly when it is stored and every query field is present in it with an equal value |
| `Collection.FilterAppend` | utils/database/basicdb.py:81-90 | the filter keeps storage order: it distributes over concatenation |
| `Collection.FilterAllMatch` | utils/database/basicdb.py:81-90 | when every document matches, the filter returns the collection unchanged |
| `Collection.EmptyQueryMatchesAll` | utils/database/basicdb.py:78-79 | the empty query would select the whole collection |
| `Collection.FilterEmpty` | utils/database/basicdb.py:97-100 | the filter is empty exactly when no stored document matches |
| `Collection.LastIndexWithId` | utils/database/basicdb.py:111-117 | the result is the last position whose `_id` equals the argument (no later one does), or None exactly when no position does |
| `Collection.LastWithId` | utils/database/basicdb.py:111-117 | the document at that last position, or None |
| `Collection.FirstIndexOf` | utils/database/basicdb.py:131 | the first position holding a document structurally equal to the target |
| `Collection.RemoveAt` | utils/database/basicdb.py:152 | one element fewer; the elements before the position are kept; the ones after it move down by one |
| `BasicDb.IndexOf` | utils/database/basicdb.py:131 | list.index: the first equal position when the value is present, ValueError otherwise |
| `BasicDb.BasicDB.constructor` | utils/database/basicdb.py:8-12 | the data directory is derived from `root_dir` and the file path from the data directory and the collection name; the file state is what the disk holds |
| `BasicDb.BasicDB.ReadAllDocuments` | utils/database/basicdb.py:25-31 | a stored array reads as itself; a missing or unparsable file reads as the empty collection, not an error |
| `BasicDb.BasicDB.WriteAllDocuments` | utils/database/basicdb.py:33-40 | the file is overwritten with the whole list, or a failure leaves it untouched or truncated and is reported as IOError |
| `BasicDb.BasicDB.EnsureCollectionFileExists` | utils/database/basicdb.py:43-46 | an existing file, corrupt or not, is left as it is; only a missing file gets `[]` written |
| `BasicDb.Open` | utils/database/basicdb.py:8-15 | construction never overwrites an existing collection; a fresh store reads as `[]`; a failed setup write is an error |
| `BasicDb.BasicDB.Create` | utils/database/basicdb.py:51-69 | a non-dictionary fails with ValueError before any read or write; otherwise the file becomes the old collection followed by the stamped copy, and that copy is returned; a failed write is IOError |
| `BasicDb.BasicDB.Find` | utils/database/basicdb.py:74-100 | with no query or an empty one, the whole collection in storage order; otherwise the documents matching every query field, in storage order, or None when none match; the file is not changed |
| `BasicDb.BasicDB.FindById` | utils/database/basicdb.py:103-117 | the last document with the identifier, or None; KeyError when a stored document has no `_id`; read-only |
| `BasicDb.BasicDB.FindByIdAndUpdate` | utils/database/basicdb.py:122-139 | unknown id: None and no write; known id: the first document equal to the found one is replaced by the update stamped with the id, all other positions and the length stay, and the stamped update is returned; KeyError and IOError propagate |
| `BasicDb.BasicDB.FindByIdAndDelete` | utils/database/basicdb.py:144-154 | unknown id: ValueError; known id: success with the file unchanged, since the shortened list is never written |
| `BasicDb.BasicDB.FindByIdAndDeleteCorrected` | utils/database/basicdb.py:144-154 | delete with the write call added and an unknown id made a no-op: the file becomes the list without the first document equal to the found one |
| `BasicDb.DeleteThenFindById` | utils/database/basicdb.py:144-154 | after deleting a document that find_by_id found, find_by_id still returns the same document |
| `Collection.Updated` | utils/database/basicdb.py:131-135 | the collection an update writes has the same length; the first document equal to the found one becomes the stamped update and every other position is unchanged |
| `Collection.Deleted` | utils/database/basicdb.py:150-152 | the collection the corrected delete writes has one document fewer: the documents before the first one equal to the found one are kept, and the ones after it move down by one |
| `Lifecycle.CreatedIsFound` | utils/database/basicdb.py:56-69 | after create, every document still has an `_id` and find_by_id of the new identifier returns the created document |
| `Lifecycle.CreateKeepsIdsUnique` | utils/database/basicdb.py:56-63 | with an unused identifier, create keeps all identifiers distinct |
| `Lifecycle.UniqueFirstIndex` | utils/database/basicdb.py:131 | under unique identifiers, list.index of a stored document is its own position |
| `Lifecycle.UpdateKeepsIds` | utils/database/basicdb.py:131-135 | update leaves the sequence of identifiers unchanged, so uniqueness is preserved |
| `Lifecycle.UpdatedIsFound` | utils/database/basicdb.py:124-137 | under unique identifiers, update replaces the position find_by_id found and find_by_id then returns the stamped update |
| `Lifecycle.UpdateHiddenByDuplicate` | utils/database/basicdb.py:111-135 | with two equal documents sharing an identifier, update replaces the first while find_by_id keeps returning the unchanged second |
| `Lifecycle.DeletedIsGone` | utils/database/basicdb.py:146-152 | under unique identifiers, the corrected delete removes exactly the found position, keeps the rest in order and unique, and the identifier is then not found |
| `Lifecycle.FilterExample` | utils/database/basicdb.py:81-100 | one field `genre = sf` selects documents 1 and 3 in order; adding `_id = 2` selects none |

## Left out

- Directory creation (`os.makedirs`, basicdb.py:19-22) is not modelled. It is file-system plumbing and does not touch the collection.
- The `print` logging (basicdb.py:22, 39, 46, 67) is not modelled. It has no effect on the state.
- Read errors other than a missing file or unparsable JSON are not modelled. The source catches only `FileNotFoundError` and `json.JSONDecodeError` (basicdb.py:30). A file that is not valid UTF-8 (`UnicodeDecodeError`) or a path that cannot be read (`PermissionError`, `IsADirectoryError`) raises out of every operation, `find` included. The model's file has no state for these.
- JSON serialisation details (indentation, ASCII escaping) are not modelled. The file is abstract: missing, unparsable, or an array of objects. A file holding valid JSON that is not an array of objects is outside the model.
- Document values are strings, as in the application. Other JSON value types are not modelled.
- The cause of a write failure (permissions, disk full) is not modelled. Only its effect on the file and the error it raises are.
- `uuid.uuid4().hex` is the `freshId` parameter. Its format (32 hexadecimal digits) and its randomness are not modelled.
- Python aliasing is moot with value-typed maps: `create`'s deep copy, and `update["_id"] = _id` writing into the caller's dictionary.
- `find_by_id_and_update` on a non-dictionary `update` is not modelled. Its parameter is typed as a document.
- Paths follow POSIX rules only. The Windows path rules the same code would use there are not modelled.
- Concurrent access by several processes or threads is not modelled. Operations are sequential.

## Findings

| source | as written | input that shows it | evidently intended | confidence | as-written member | corrected member |
|---|---|---|---|---|---|---|
| utils/database/basicdb.py:154 | `self._write_all_documents` is named but not called, so a delete never reaches the file | any collection holding a document with the given `_id`: after the delete, find_by_id still returns it | `self._write_all_documents(documents)`, persisting the shortened list | high; not executed | `BasicDb.DeleteThenFindById` | `BasicDb.BasicDB.FindByIdAndDeleteCorrected` |
| utils/database/basicdb.py:148-150 | an unknown id makes `documents.index(None)` raise ValueError | a collection with no document whose `_id` is the argument | report "not found" and change nothing | medium; not executed | `BasicDb.BasicDB.FindByIdAndDelete` | `BasicDb.BasicDB.FindByIdAndDeleteCorrected` |

`BasicDb.BasicDB.FindByIdAndDelete` models delete as written. `BasicDb.BasicDB.FindByIdAndDeleteCorrected`
adds the write call and the not-found no-op. `Collection.Deleted` and `Lifecycle.DeletedIsGone` state
what the corrected delete writes.

`find` returns `[]` for an empty collection without a filter, but `None` when a filter matches
nothing. The model keeps this asymmetry as written.

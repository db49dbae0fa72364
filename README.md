# Migrango core in Dafny

Migrango compares two ArangoDB deployments:

- the *reference* deployment, on which `compare_collections` runs as `self`;
- the *compared* deployment, which is `other`.

It does four things with the result:

- It finds the collections whose checksums differ. It also finds the collections that exist on only one side.
- It turns flat diff rows into migration actions (for a template migration) or into PHP code (for a fixed-format migration).
- It dumps every collection to numbered JSON files.
- It keeps a registry of named connection profiles.

This project models that core and proves what each piece promises. There is one module per source file, plus small support modules:

| module | source | flavour |
|---|---|---|
| `ArangoClients` | `arangodb/arango_client.py` | listing, document reading through a cursor, partition, checksum loop |
| `Actions` | `migration/action.py` | the `ActionType` enum and the `Action` record |
| `MigrationCreators` | `migration/arango_migration_creator.py` | the shared class-level action list, the row mapping, grouping by tag |
| `PhpMigrationCreators` | `migration/php_arango_migration_creator.py` | head + fragments + footer, built by loops |
| `Connections` | `arangodb/connection.py` | the profile store, its search loops, the client cache |
| `ExportManagers` | `export_manager.py` | the file counter, the write log, the callback |
| `Wrappers`, `Json`, `Seqs`, `Sorting`, `Digits`, `PyDicts`, `Effects`, `DiffRows` | — | `Option`/`Result`, JSON values, `filter`, `list.sort`, `str(int)` and `f"{n:016}"`, insertion-ordered `dict`, the effect log, flat diff rows |

How the outside world is modelled:

- **The database driver** is a `Database` value. It holds:
  - the raw collection listing;
  - the batches in which the server hands out the documents of a cursor over each collection;
  - each collection's checksum, with `None` where the checksum request raises.
- **A cursor** is a `Cursor` object. It holds the current batch and the batches the server has not sent yet. Like the python-arango cursor, its `empty()` and `pop()` look at the current batch only, and `fetch()` brings the next one.
- **A progress callback or a file write** becomes an event appended to a `Trace` object.
- **Foreign functions** are parameters of the operations that call them: `json.dumps` as `dumps`, the Jinja2 render as `render`, and Python's text of a data dict as `show`.
- **The connections file** is a `ConnectionFile` object holding `None` while the file does not exist.
- **The class attribute `MigrationCreator.actions`** is one `ActionList` object. Every creator is handed that same object, and every creator appends to it.

**Which way the migration goes.** `compare_collections` calls the partition with `(other, self)` as `(left, right)`. So:

- "create" holds the compared side's collections that the reference lacks;
- "delete" holds the reference's collections that have no (name, type) match on the compared side.

The checksum loop runs before the partition (`arangodb/arango_client.py:71`). It asks the compared side for the checksum of every reference collection except `migrations`, and the driver raises for a collection the compared side does not have. So a comparison that returns at all has a "delete" list that can hold only two kinds of collection:

- `migrations`;
- a collection the compared side holds under the same name with another type.

`ArangoClients.DeleteOnlyClashes` proves this, under `ArangoClients.ChecksumsOfListed`. That predicate says a deployment answers checksum requests only for the collections it lists.

## Model

| member | source | states |
|---|---|---|
| `ArangoClients.ListedCollectionsSpec` | arangodb/arango_client.py:83-96 | the listing holds no name containing `_`, is non-decreasing by `int(id)`, and is a permutation of the unsorted listing with `_` names dropped |
| `ArangoClients.ArangoClient.GetAllCollections` | arangodb/arango_client.py:91-96 | with `sort_by_id` the result is `ListedCollections`; without it, the listing filtered in driver order |
| `ArangoClients.DrainCursor` | arangodb/arango_client.py:100-104 | the loop as written returns exactly the documents of the batch the cursor holds, in order. It leaves that batch empty, the later batches unread and the cursor closed |
| `ArangoClients.ArangoClient.GetAllDocumentsAsWritten` | arangodb/arango_client.py:98-106 | the result is the first batch sorted stably by `str(_id)`: the same multiset as that batch, and non-decreasing |
| `ArangoClients.FirstBatchLosesDocuments` | arangodb/arango_client.py:100-104 | when a second batch is non-empty, the as-written result has fewer documents than the collection |
| `ArangoClients.OneBatchAgrees` | arangodb/arango_client.py:100-105 | for a collection that fits in one batch, the as-written and the corrected results are equal |
| `ArangoClients.DrainAll` | arangodb/arango_client.py:100-104 | the corrected loop, which iterates the cursor and fetches each further batch, returns every batch's documents in order and leaves the cursor exhausted and closed |
| `ArangoClients.ArangoClient.GetAllDocuments` | arangodb/arango_client.py:98-106 | corrected: the result is every document of the collection, sorted stably by `str(_id)`: the same multiset, and non-decreasing |
| `ArangoClients.DocumentPreorder` | arangodb/arango_client.py:105 | comparing `str(x.get("_id", 0))` keys is total and transitive, so the sort is well defined |
| `ArangoClients.ByIdPreorder` | arangodb/arango_client.py:94 | comparing `int(x.get("id", 0))` keys is total and transitive |
| `Sorting.SortByPermutation` | arangodb/arango_client.py:94 | `list.sort` keeps exactly the elements it is given |
| `Sorting.SortBySorted` | arangodb/arango_client.py:94 | `list.sort` by a total preorder yields a non-decreasing list |
| `Sorting.InsertSorted` | arangodb/arango_client.py:105 | one insertion step keeps a sorted list sorted |
| `Sorting.InsertPermutation` | arangodb/arango_client.py:105 | one insertion step adds exactly the inserted element |
| `Sorting.LexLeTotal` | arangodb/arango_client.py:105 | Python string comparison: of two strings one is at most the other |
| `Sorting.LexLeTransitive` | arangodb/arango_client.py:105 | Python string comparison is transitive |
| `Sorting.FilterSorted` | arangodb/arango_client.py:96 | dropping system collections after sorting keeps the list sorted |
| `Seqs.FilterMembership` | arangodb/arango_client.py:96 | `filter` keeps an element iff it is in the input and passes the test |
| `Seqs.FilterPermutation` | arangodb/arango_client.py:93-96 | sorting before filtering gives a permutation of filtering alone |
| `Seqs.FilterConcat` | arangodb/arango_client.py:154-155 | a comprehension over two concatenated lists is the concatenation of the two comprehensions |
| `Json.Get` | arangodb/arango_client.py:105 | `d.get(key)` is `None` iff no member has the key, and otherwise is a value stored under the key |
| `ArangoClients.HasIdentityExists` | arangodb/arango_client.py:154-155 | the `any(...)` test holds iff some element has the same name and type |
| `ArangoClients.Partition` | arangodb/arango_client.py:150-156 | `__get_collections_for_remove_and_for_crete`: neither list is longer than its side; no collection in "create" has a (name, type) match in `right`, and none in "delete" has one in `left` (`PartitionMembership` adds the converse) |
| `ArangoClients.PartitionMembership` | arangodb/arango_client.py:150-156 | both directions: "create" holds exactly the `left` collections with no (name, type) match in `right`, and "delete" exactly the `right` collections with no match in `left` |
| `ArangoClients.PartitionKeepsOrder` | arangodb/arango_client.py:154-155 | each list is an order-preserving subsequence of its side |
| `ArangoClients.PartitionOfSameIdentities` | arangodb/arango_client.py:154-155 | sides with the same (name, type) identities give empty "create" and "delete" |
| `ArangoClients.PartitionTypeClash` | arangodb/arango_client.py:154-155 | a name held on both sides with different types appears in both "create" and "delete". Its hypothesis that names are unique on each side holds because ArangoDB keeps collection names unique within a database |
| `ArangoClients.ScanChecksumsComplete` | arangodb/arango_client.py:62-77 | the loop ends without error iff both checksum requests succeed for every collection but `migrations`; then the mismatches are, in order, the compared collections whose two checksums differ, and the callback fired once per collection but `migrations` |
| `ArangoClients.MismatchMembership` | arangodb/arango_client.py:62-75 | both directions: `c` is a mismatch iff it is a listed collection, it is not `migrations`, and its checksums differ |
| `ArangoClients.ScanChecksumsFailure` | arangodb/arango_client.py:66-71 | an error names the first compared collection whose checksum request failed on either side, and the mismatches and callback count are those of the collections before it |
| `ArangoClients.ScanStopsAtFailure` | arangodb/arango_client.py:62-77 | after a failure, later collections change nothing |
| `ArangoClients.ArangoClient.CompareOne` | arangodb/arango_client.py:63-77 | one turn of the loop: skip `migrations`, stop on a failed checksum, otherwise append a mismatch when the checksums differ and fire the callback once |
| `ArangoClients.ArangoClient.CompareChecksums` | arangodb/arango_client.py:62-77 | the loop's mismatches and error are those of `ScanChecksums`, and the callback fires once per compared collection |
| `ArangoClients.ArangoClient.CompareCollections` | arangodb/arango_client.py:46-81 | the result is `CompareResult(self, other)`: the mismatches, then the partition of `(other, self)`. The count-mismatch log changes nothing. The callback fires `CallbackCount` times |
| `ArangoClients.DeleteOnlyClashes` | arangodb/arango_client.py:62-81 | when checksums exist only for listed collections, a successful comparison puts into "delete" only `migrations` or collections the compared side holds under the same name with another type |
| `ArangoClients.ArangoClient.constructor` | arangodb/arango_client.py:25-39 | the client keeps url, database, credentials, `need_auth` and its driver |
| `Actions.ValueInjective` | migration/action.py:4-9 | the five tag strings are pairwise distinct, so they work as group keys |
| `Actions.NameMarkInjective` | migration/action.py:4-9 | the five member names differ at their tenth letter |
| `Actions.DictForgetsKind` | migration/action.py:18-19 | both directions: two actions have the same `__dict__()` iff their data and collection names agree, whatever their types |
| `Actions.Action.Text` | migration/action.py:21-25 | `__str__`/`__repr__` text is `ActionType.`, the member name, ` - `, then the data's text |
| `Actions.TextDeterminesKind` | migration/action.py:21-25 | two actions with the same text have the same type |
| `PyDicts.Dict.Items` | migration/arango_migration_creator.py:34 | `items()` lists each key once, in first-insertion order, with its value |
| `PyDicts.Dict.Put` | migration/arango_migration_creator.py:24 | `d[k] = v` keeps the dict well formed: a present key keeps its place, and a new key goes last |
| `PyDicts.PutItems` | migration/arango_migration_creator.py:24 | in `items()` order, assignment replaces a present key's entry where it stands, or appends a new key's entry |
| `PyDicts.PutThenGet` | migration/arango_migration_creator.py:24 | after `d[k] = v`, `d[k]` is `v` and every other key keeps its value |
| `PyDicts.Empty` | migration/arango_migration_creator.py:16 | `{}` has no items |
| `MigrationCreators.CollectionActions` | migration/arango_migration_creator.py:17-20 | one COLLECTION_CREATE per collection to create, then one DELETE_COLLECTION per collection to remove, each with data `{"value": c}` and name `c["name"]`, in input order |
| `MigrationCreators.ActionList.Append` | migration/arango_migration_creator.py:12 | the shared list grows by exactly the appended action |
| `MigrationCreators.MigrationCreator.constructor` | migration/arango_migration_creator.py:14-20 | the shared list grows by exactly `CollectionActions`; the creator starts with an empty diff dict and holds the same list object it was handed |
| `MigrationCreators.MigrationCreator.AddDiff` | migration/arango_migration_creator.py:22-24 | the diff dict becomes `old.Put(name, diff)`: a replaced diff keeps its place |
| `MigrationCreators.ValueChangedActions` | migration/arango_migration_creator.py:49-51 | one DOCUMENT_CREATE `{"value": v}` per entry of the mapping, in its order |
| `MigrationCreators.RowActions` | migration/arango_migration_creator.py:39-53 | a row's actions: the row weight in number, and all on the row's collection. An error comes exactly for an unknown tag (reported as `UnsupportedAction`), for a non-dict `values_changed` value, or for a needed `path[1]` that is missing |
| `MigrationCreators.UpdateAction` | migration/arango_migration_creator.py:46-47 | the DOCUMENT_UPDATE of a row fails with an index error exactly when the path has fewer than two steps; otherwise it names the row's collection, the document `path[0]` and the field `path[1]` |
| `MigrationCreators.DocumentCreateAction` | migration/arango_migration_creator.py:71-76 | `__create_document_create_action`: a dict value gives DOCUMENT_CREATE; any other value gives DOCUMENT_UPDATE, and an error exactly when the path is too short; the action names the row's collection |
| `MigrationCreators.RowMapping` | migration/arango_migration_creator.py:41-51 | the mapping table: (1) an added dict becomes DOCUMENT_CREATE; (2) an added non-dict or a `type_changes` row becomes DOCUMENT_UPDATE `{"id": path[0], "value": {path[1]: value}}`; (3) removed becomes DOCUMENT_DELETE; (4) `values_changed` becomes one DOCUMENT_CREATE per entry |
| `MigrationCreators.RowsActionsCount` | migration/arango_migration_creator.py:39-51 | rows that raise nothing append one action each, and a `values_changed` row one per entry |
| `MigrationCreators.RowsActionsFailure` | migration/arango_migration_creator.py:52-53 | a raising row stops the loop; the actions of the rows before it stay appended |
| `MigrationCreators.RowsActionsStops` | migration/arango_migration_creator.py:52-53 | after a raise, later rows append nothing |
| `MigrationCreators.RowsActionsCollection` | migration/arango_migration_creator.py:39-51 | every appended action names the collection of its rows |
| `MigrationCreators.DictActionsStops` | migration/arango_migration_creator.py:34-35 | after a raise, later collections append nothing |
| `MigrationCreators.MigrationCreator.AppendRow` | migration/arango_migration_creator.py:40-53 | one turn of the row loop appends `RowActions` of the row, or raises its error and appends nothing |
| `MigrationCreators.MigrationCreator.CreateActionFromDiff` | migration/arango_migration_creator.py:37-53 | the shared list grows by `RowsActions` of the rows, and the error, if any, is the first row's that raised |
| `MigrationCreators.MigrationCreator.CreateActionsFrom` | migration/arango_migration_creator.py:34-35 | the collections are visited in dict order, and each one's actions are appended after the previous ones |
| `MigrationCreators.MigrationCreator.CreateActions` | migration/arango_migration_creator.py:32-35 | the shared list grows by `DictActions` of the diff dict's items |
| `MigrationCreators.MigrationCreator.CreateMigration` | migration/arango_migration_creator.py:26-30 | the document actions are appended to the shared list, and the whole list is grouped and rendered. The diff dict is untouched, so a second call appends the same actions again |
| `MigrationCreators.GroupActions` | migration/arango_migration_creator.py:57-63 | the grouping loop builds `Group(actions)` |
| `MigrationCreators.Entries` | migration/arango_migration_creator.py:61-63 | each entry is the action's `__dict__()`, in action order |
| `MigrationCreators.GroupKeys` | migration/arango_migration_creator.py:57-63 | both directions: a tag has a group iff some action carries it |
| `MigrationCreators.GroupLookup` | migration/arango_migration_creator.py:57-63 | the group of a tag holds the entries of exactly the actions with that tag, in list order |
| `MigrationCreators.GroupSizes` | migration/arango_migration_creator.py:57-63 | the group sizes add up to the number of actions |
| `PhpMigrationCreators.MigrationFrame` | migration/php_arango_migration_creator.py:9-35 | every migration opens with the fixed head and ends with the empty `down()` section |
| `PhpMigrationCreators.EmptyMigration` | migration/php_arango_migration_creator.py:46-55 | with no diffs the text is the head followed by the footer |
| `PhpMigrationCreators.IgnoredRows` | migration/php_arango_migration_creator.py:60-70 | rows that are neither added nor removed contribute no text |
| `PhpMigrationCreators.RowText` | migration/php_arango_migration_creator.py:60-70 | a row adds text iff it is an added or a removed row |
| `PhpMigrationCreators.FragmentShapes` | migration/php_arango_migration_creator.py:62-70 | an added row's text decodes the dumped value and calls `insert('<collection>'…)` with `overwriteMode => 'ignore'`; a removed row's text calls `removeByExample('<collection>', …)` with `limit => 1` |
| `PhpMigrationCreators.RowsTextConcat` | migration/php_arango_migration_creator.py:57-71 | the text of several rows is each row's text in row order |
| `PhpMigrationCreators.ItemsTextConcat` | migration/php_arango_migration_creator.py:50-55 | the text of several collections is each collection's text in dict order |
| `PhpMigrationCreators.ConcatAppend` | migration/php_arango_migration_creator.py:52-55 | the `+=` loops distribute over concatenated inputs |
| `PhpMigrationCreators.ContainsExtend` | migration/php_arango_migration_creator.py:63-70 | appending text keeps an occurrence |
| `PhpMigrationCreators.PhpMigrationCreator.constructor` | migration/php_arango_migration_creator.py:39-40 | the diff dict starts empty |
| `PhpMigrationCreators.PhpMigrationCreator.AddDiff` | migration/php_arango_migration_creator.py:42-44 | the diff dict becomes `old.Put(name, diff)`: a second diff for a collection replaces the first |
| `PhpMigrationCreators.PhpMigrationCreator.CreateAction` | migration/php_arango_migration_creator.py:57-71 | the loop builds `RowsText` of the rows |
| `PhpMigrationCreators.PhpMigrationCreator.CreateActions` | migration/php_arango_migration_creator.py:50-55 | the loop builds `ItemsText` of the dict's items |
| `PhpMigrationCreators.PhpMigrationCreator.CreateMigration` | migration/php_arango_migration_creator.py:46-48 | the text is `MigrationText(diff_dic)`. The method changes no state, so repeated calls give the same text |
| `Connections.ConnectionFile.constructor` | arangodb/connection.py:10 | the store holds what it is given |
| `Connections.Connection.constructor` | arangodb/connection.py:13-25 | the profile fields are stored unchanged, and no client is cached yet |
| `Connections.Connection.CheckFile` | arangodb/connection.py:68-72 | a missing store becomes the empty list; an existing one is untouched |
| `Connections.Connection.GetList` | arangodb/connection.py:48-52 | the list read is the stored list, or `[]` for a missing store that is then created |
| `Connections.ContainsName` | arangodb/connection.py:76-79 | both directions: the search loop answers true iff some profile has the name |
| `Connections.Connection.Exist` | arangodb/connection.py:74-79 | `exist(n)` holds iff some stored profile has name `n` |
| `Connections.Connection.Save` | arangodb/connection.py:27-38 | an existing name gives "already exists" and the store is as before; otherwise the store becomes `old + [this]` |
| `Connections.SaveKeepsUnique` | arangodb/connection.py:29-33 | a save that succeeds keeps names unique |
| `Connections.Connection.Remove` | arangodb/connection.py:40-46 | the store becomes the profiles with another name |
| `Connections.RemoveSpec` | arangodb/connection.py:42-43 | `remove` keeps exactly the profiles with another name, and changes nothing when the name is absent |
| `Connections.RemoveKeepsUnique` | arangodb/connection.py:42-43 | removing keeps names unique |
| `Connections.FindLast` | arangodb/connection.py:57-61 | the loop without `break` finds the last profile with the name, and finds none iff no profile has it |
| `Connections.Connection.Get` | arangodb/connection.py:54-66 | "not found" iff no profile has the name; otherwise a new connection built from the last matching profile |
| `Connections.Connection.GetClient` | arangodb/connection.py:86-96 | the client is built on first use, with `need_auth` iff both username and password are set; later calls return the same client |
| `Digits.Decimal` | export_manager.py:42 | `str(n)` is one or more digits, and has two or more exactly when `n >= 10` |
| `Digits.ZeroPad` | export_manager.py:42 | `:016` pads with zeros to at least 16 characters and never truncates |
| `Digits.DecimalValue` | export_manager.py:42 | reading `str(n)` back as digits gives `n` |
| `Digits.ZeroPadValue` | export_manager.py:42 | zero padding does not change the value of a digit string |
| `Digits.PaddedDecimalInjective` | export_manager.py:42 | different counters give different padded texts |
| `ExportManagers.PaddedDigits` | export_manager.py:42 | the padded counter is at least 16 characters, all digits |
| `ExportManagers.FileNameParts` | export_manager.py:42 | a file name is the padded counter, `_`, the collection name, then `.json` |
| `ExportManagers.FileNameRoundTrip` | export_manager.py:42 | reading a file name back: its leading digits give the counter, and the text between the following `_` and `.json` is the collection name |
| `ExportManagers.ExportManager.GenerateFileName` | export_manager.py:41-42 | `__generate_file_name`: the name read back gives the current counter and the collection name, and it ends in `.json` |
| `ExportManagers.FileNameInjective` | export_manager.py:42 | a file name determines its counter and its collection name |
| `ExportManagers.JoinInjective` | export_manager.py:37 | `os.path.join` under one directory keeps different file names different |
| `ExportManagers.ExportPathsDistinct` | export_manager.py:37-42 | files with different numbers get different paths |
| `ExportManagers.ExportEventsShape` | export_manager.py:31-34 | per collection, in listing order: a write of the file numbered `start + i`, then the callback |
| `ExportManagers.ExportedFile` | export_manager.py:31-33 | write `i` goes to collection `i`'s numbered path and holds `json.dumps` of what `get_all_documents` returns as written: the collection's first batch, sorted |
| `ExportManagers.ExportWrites` | export_manager.py:31-42 | no two files of one export share a path |
| `ExportManagers.ExportManager.constructor` | export_manager.py:9-19 | the manager keeps client and directory, and the counter starts at 1 |
| `ExportManagers.ExportManager.WriteMigrationFile` | export_manager.py:36-39 | one write under the migration directory, then the counter goes up by 1 |
| `ExportManagers.ExportManager.ExportCollection` | export_manager.py:32-34 | one numbered file with the sorted first batch that `get_all_documents` returns as written, then one callback; the counter goes up by 1 |
| `ExportManagers.ExportManager.ExportCollectionAllBatches` | export_manager.py:32-34 | corrected: the same pass, writing every document of the collection, sorted |
| `ExportManagers.ExportWriteAgrees` | export_manager.py:32-33 | the as-written and corrected writes go to the same path, and they are equal for a collection that fits in one batch |
| `ExportManagers.ExportManager.ExportAll` | export_manager.py:31-34 | the log grows by `ExportEvents` of the collections, and the counter by their number |
| `ExportManagers.ExportManager.MakeMigrationFiles` | export_manager.py:21-34 | one file and one callback per listed collection, in `get_all_collections` order, numbered on from the current counter |

## Left out

- DeepDiff and `Delta.to_flat_dicts`: the diff rows are given as input. So are the `_rev`/`_key` exclusion regexes of the commands, which depend on DeepDiff's path syntax. The document-level diff semantics therefore belong to no operation here.
- Jinja2 loading and `template.render(actions=..., json=json)`: the model takes a `render` function and passes it the grouped actions.
- The python-arango driver is a `Database` value:
  - the listing is a sequence;
  - a checksum is an opaque string.
  Every driver exception except a failed checksum request is left out. The failed request becomes `ChecksumFailed` rather than a propagated exception.
- `__get_headers`, `__authorise`, `get_database`, `get_db` and `__str__` of the client: HTTP authentication through `requests` and accessors. The `logging` calls throughout, including the count-mismatch message of `compare_collections`, which changes no result.
- `ArangoClients.Collection`: a descriptor keeps only its parsed id, its name and its type. The driver's descriptor has further fields (such as `system`, `status` and the id as a string), which `compare_collections` returns and the migration creator passes into `{"value": collection}`. The model does not carry them.
- `ArangoClients.ChecksumsOfListed`: the driver raising for a checksum of a collection that does not exist is a hypothesis of `DeleteOnlyClashes`, not a property of every `Database` value.
- The python-arango cursor's transport is not modelled: HTTP batching, the `batch_size` and `ttl` options, and deleting the cursor on the server. A cursor's batches are given in `Database.batches`, and `Cursor` models how it hands them out.
- `Json.Json`: a JSON number is an integer. Floats in documents are not represented; document values pass only through `dumps`, and ids are parsed integers.
- `ArangoClients.IdKey`: holds the already parsed `int(x["id"])`. A descriptor whose id does not parse (a `ValueError` in the source) is not modelled.
- `ArangoClients.Visible`: every descriptor has a name. The source's `"_" in False`, which raises for a descriptor without a name, is not modelled.
- `ArangoClients.DocumentKey`: an `_id` that is a list or dict sorts by the empty string, not by Python's `str()` of it. Document ids are strings in ArangoDB.
- `json.dump`/`json.load` and the `_connection.json` file: the store is `ConnectionFile.contents`. A stored entry without a `name` (a `KeyError`) is not modelled.
- `Connections.Connection.AsProfile`: a saved profile holds the five constructor fields. In the source, `self.__dict__` also holds the cached `client` once `get_client` has run, and `json.dump` of it would then fail.
- `Connection.test`: a network round trip.
- `os.makedirs` and the file writes of `make_migration_files`: each write is an event in the log, and directory creation is not modelled.
- `json.dumps` and Python's text of a dict: the parameters `dumps` and `show`.
- The unused class attribute `actions = ClassVar[list[str]]` of the PHP creator: it is never read or written.
- `MigrationCreators.ValueChangedActions`: a `values_changed` mapping is a JSON object's members. The model does not exclude repeated keys, which a Python dict cannot hold.
- Aliasing of the `data` dicts: actions and their `__dict__()` entries are values, so a later mutation of a shared dict is not modelled. No such mutation happens in the core.
- The click CLI, the rich progress display, the command wrappers and the logging setup: orchestration with no logic of its own.

## Findings

| source | as written | input that shows it | evidently intended | confidence | as-written member | corrected member |
|---|---|---|---|---|---|---|
| arangodb/arango_client.py:100-104 | the loop stops when the cursor's current batch is empty. It never fetches, so later batches are never read | a collection larger than one server batch (1000 documents by default), so that a second non-empty batch exists | every document of the collection, in every dump file | not executed; rests on the python-arango cursor's documented `empty`/`pop` behaviour | `ArangoClients.ArangoClient.GetAllDocumentsAsWritten` (with `ArangoClients.DrainCursor` and `ArangoClients.FirstBatchLosesDocuments`) | `ArangoClients.ArangoClient.GetAllDocuments` (with `ArangoClients.DrainAll`), and `ExportManagers.ExportManager.ExportCollectionAllBatches` for the dump files |

/** The database client: listing collections, reading all documents of a collection,
    and comparing two deployments collection by collection. The driver is abstract:
    a `Database` value gives what its calls return. */
module ArangoClients {
  import opened Wrappers
  import opened Json
  import opened Seqs
  import opened Sorting
  import opened Digits
  import opened Effects

  datatype CollectionType = DocumentType | EdgeType

  /** A collection descriptor as the driver lists it. `id` holds `int(x["id"])`, or
      `None` when the descriptor has no id. */
  datatype Collection = Collection(id: Option<int>, name: string, kind: CollectionType)

  /** What the driver answers for one database: every collection (system ones included),
      the batches in which the server hands out the documents of a cursor over a
      collection, and the collection checksum (with data, without revisions), `None`
      where the checksum request fails. */
  datatype Database = Database(
    collections: seq<Collection>,
    batches: string -> seq<seq<Json>>,
    checksum: string -> Option<string>)

  datatype ClientError = ChecksumFailed(collection: string)

  /** Collections to create and to delete. */
  datatype Delta = Delta(create: seq<Collection>, delete: seq<Collection>)

  /** The three lists `compare_collections` returns. */
  datatype Comparison = Comparison(mismatches: seq<Collection>, create: seq<Collection>, delete: seq<Collection>)

  // ---------------------------------------------------------------- listing

  /** The sort key `int(x.get("id", 0))`. */
  function IdKey(c: Collection): int {
    c.id.GetOr(0)
  }

  predicate ByIdLe(a: Collection, b: Collection) {
    IdKey(a) <= IdKey(b)
  }

  /** System collections are those whose name contains an underscore. */
  predicate Visible(c: Collection) {
    '_' !in c.name
  }

  /** What `get_all_collections()` returns: the listing sorted stably by id, system
      collections dropped. */
  function ListedCollections(db: Database): seq<Collection> {
    Filter(SortBy(db.collections, ByIdLe), Visible)
  }

  /** The listing holds no system collection, is sorted by id, and is a permutation of
      the unsorted listing with system collections dropped. */
  lemma ListedCollectionsSpec(db: Database)
    ensures forall i :: 0 <= i < |ListedCollections(db)| ==> '_' !in ListedCollections(db)[i].name
    ensures SortedBy(ListedCollections(db), ByIdLe)
    ensures multiset(ListedCollections(db)) == multiset(Filter(db.collections, Visible))
  {
    var sorted := SortBy(db.collections, ByIdLe);
    ByIdPreorder();
    SortBySorted(db.collections, ByIdLe);
    SortByPermutation(db.collections, ByIdLe);
    FilterPermutation(sorted, db.collections, Visible);
    FilterSorted(sorted, Visible, ByIdLe);
  }

  lemma ByIdPreorder()
    ensures TotalPreorder(ByIdLe)
  {
  }

  // ---------------------------------------------------------------- documents

  /** The sort key `str(x.get("_id", 0))` of a document. */
  function DocumentKey(doc: Json): string {
    match doc
    case JObject(members) =>
      (match Get(members, "_id")
       case None => "0"
       case Some(JString(s)) => s
       case Some(JNumber(n)) => IntText(n)
       case Some(JNull) => "None"
       case Some(JBool(b)) => if b then "True" else "False"
       case Some(_) => "")
    case _ => ""
  }

  predicate DocumentLe(a: Json, b: Json) {
    LexLe(DocumentKey(a), DocumentKey(b))
  }

  lemma DocumentPreorder()
    ensures TotalPreorder(DocumentLe)
  {
    forall a: Json, b: Json ensures DocumentLe(a, b) || DocumentLe(b, a) {
      LexLeTotal(DocumentKey(a), DocumentKey(b));
    }
    forall a: Json, b: Json, c: Json | DocumentLe(a, b) && DocumentLe(b, c)
      ensures DocumentLe(a, c)
    {
      LexLeTransitive(DocumentKey(a), DocumentKey(b), DocumentKey(c));
    }
  }

  /** Every document of a collection, batch after batch. */
  function AllDocuments(db: Database, name: string): seq<Json> {
    Flatten(db.batches(name))
  }

  /** The batch a freshly opened cursor holds. */
  function FirstBatch(db: Database, name: string): seq<Json> {
    if db.batches(name) == [] then [] else db.batches(name)[0]
  }

  /** The batches the server still holds for a freshly opened cursor. */
  function LaterBatches(db: Database, name: string): seq<seq<Json>> {
    if db.batches(name) == [] then [] else db.batches(name)[1..]
  }

  /** What `get_all_documents(name)` is meant to return: every document of the
      collection, sorted stably by `_id`. */
  function SortedDocuments(db: Database, name: string): seq<Json> {
    SortBy(AllDocuments(db, name), DocumentLe)
  }

  /** What `get_all_documents(name)` returns as written: the first batch only, sorted
      stably by `_id`. */
  function FirstBatchDocuments(db: Database, name: string): seq<Json> {
    SortBy(FirstBatch(db, name), DocumentLe)
  }

  /** A driver cursor: the batch it holds, the batches the server has not sent yet, and
      whether it was closed. `Empty` and `Pop` look at the held batch only; `Fetch`
      asks the server for the next batch. */
  class Cursor {
    var batch: seq<Json>
    var pending: seq<seq<Json>>
    var closed: bool

    constructor (first: seq<Json>, later: seq<seq<Json>>)
      ensures batch == first && pending == later && !closed
    {
      batch := first;
      pending := later;
      closed := false;
    }

    predicate Empty()
      reads this
    {
      batch == []
    }

    predicate HasMore()
      reads this
    {
      pending != []
    }

    method Pop() returns (doc: Json)
      requires batch != []
      modifies this
      ensures doc == old(batch)[0] && batch == old(batch)[1..]
      ensures pending == old(pending) && closed == old(closed)
    {
      doc := batch[0];
      batch := batch[1..];
    }

    /** The next batch joins the held one. */
    method Fetch()
      requires pending != []
      modifies this
      ensures batch == old(batch) + old(pending)[0] && pending == old(pending)[1..]
      ensures closed == old(closed)
    {
      batch := batch + pending[0];
      pending := pending[1..];
    }

    method Close()
      modifies this
      ensures closed && batch == old(batch) && pending == old(pending)
    {
      closed := true;
    }
  }

  /** The `while not cursor.empty()` loop of `get_all_documents` and the `close` after it,
      as written: it drains the held batch and never fetches, so later batches stay
      unread. */
  method DrainCursor(cursor: Cursor) returns (docs: seq<Json>)
    modifies cursor
    ensures docs == old(cursor.batch)
    ensures cursor.batch == [] && cursor.pending == old(cursor.pending) && cursor.closed
  {
    docs := [];
    while !cursor.Empty()
      invariant docs + cursor.batch == old(cursor.batch)
      invariant cursor.pending == old(cursor.pending)
      decreases |cursor.batch|
    {
      var doc := cursor.Pop();
      docs := docs + [doc];
    }
    cursor.Close();
  }

  /** The loop as intended: iterating the cursor, which fetches the next batch whenever
      the held one runs out, then closing it. */
  method DrainAll(cursor: Cursor) returns (docs: seq<Json>)
    modifies cursor
    ensures docs == old(cursor.batch) + Flatten(old(cursor.pending))
    ensures cursor.batch == [] && cursor.pending == [] && cursor.closed
  {
    docs := [];
    while !cursor.Empty() || cursor.HasMore()
      invariant docs + (cursor.batch + Flatten(cursor.pending)) == old(cursor.batch) + Flatten(old(cursor.pending))
      decreases |cursor.pending|, |cursor.batch|
    {
      if cursor.Empty() {
        ghost var before := cursor.pending;
        cursor.Fetch();
        assert Flatten(before) == before[0] + Flatten(before[1..]);
      } else {
        var doc := cursor.Pop();
        docs := docs + [doc];
      }
    }
    assert cursor.batch + Flatten(cursor.pending) == [];
    cursor.Close();
  }

  /** A collection whose documents come in more than one batch loses the later ones when
      only the first batch is read. */
  lemma FirstBatchLosesDocuments(db: Database, name: string)
    requires |db.batches(name)| >= 2 && db.batches(name)[1] != []
    ensures |FirstBatchDocuments(db, name)| < |SortedDocuments(db, name)|
  {
    var bs := db.batches(name);
    SortByPermutation(FirstBatch(db, name), DocumentLe);
    SortByPermutation(AllDocuments(db, name), DocumentLe);
    assert Flatten(bs) == bs[0] + Flatten(bs[1..]);
    assert Flatten(bs[1..]) == bs[1] + Flatten(bs[2..]) by {
      assert bs[1..][0] == bs[1] && bs[1..][1..] == bs[2..];
    }
  }

  /** A collection that fits in one batch reads the same either way. */
  lemma OneBatchAgrees(db: Database, name: string)
    requires |db.batches(name)| <= 1
    ensures FirstBatchDocuments(db, name) == SortedDocuments(db, name)
  {
    var bs := db.batches(name);
    if bs != [] {
      assert Flatten(bs) == bs[0] + Flatten(bs[1..]);
      assert bs[0] + [] == bs[0];
    }
  }

  // ---------------------------------------------------------------- comparison

  predicate SameIdentity(a: Collection, b: Collection) {
    a.name == b.name && a.kind == b.kind
  }

  /** `any(i["name"] == x["name"] and i["type"] == x["type"] for i in cs)`. */
  predicate HasIdentity(cs: seq<Collection>, x: Collection) {
    cs != [] && (SameIdentity(cs[0], x) || HasIdentity(cs[1..], x))
  }

  /** `__get_collections_for_remove_and_for_crete(left, right)`. */
  function Partition(left: seq<Collection>, right: seq<Collection>): (d: Delta)
    ensures |d.create| <= |left| && |d.delete| <= |right|
    ensures forall i :: 0 <= i < |d.create| ==> !HasIdentity(right, d.create[i])
    ensures forall i :: 0 <= i < |d.delete| ==> !HasIdentity(left, d.delete[i])
  {
    Delta(Filter(left, x => !HasIdentity(right, x)), Filter(right, x => !HasIdentity(left, x)))
  }

  lemma {:induction false} HasIdentityExists(cs: seq<Collection>, x: Collection)
    ensures HasIdentity(cs, x) <==> exists i :: 0 <= i < |cs| && SameIdentity(cs[i], x)
  {
    if cs != [] {
      HasIdentityExists(cs[1..], x);
      if HasIdentity(cs[1..], x) {
        var i :| 0 <= i < |cs| - 1 && SameIdentity(cs[1..][i], x);
        assert SameIdentity(cs[i + 1], x);
      }
      if exists i :: 0 <= i < |cs| && SameIdentity(cs[i], x) {
        var i :| 0 <= i < |cs| && SameIdentity(cs[i], x);
        assert i == 0 || SameIdentity(cs[1..][i - 1], x);
      }
    }
  }

  /** "create" holds the `left` collections with no (name, type) match in `right`, and
      "delete" the `right` collections with no match in `left`: both directions. */
  lemma PartitionMembership(left: seq<Collection>, right: seq<Collection>, x: Collection)
    ensures x in Partition(left, right).create <==> x in left && forall i :: 0 <= i < |right| ==> !SameIdentity(right[i], x)
    ensures x in Partition(left, right).delete <==> x in right && forall i :: 0 <= i < |left| ==> !SameIdentity(left[i], x)
  {
    HasIdentityExists(right, x);
    HasIdentityExists(left, x);
    FilterMembership(left, x => !HasIdentity(right, x), x);
    FilterMembership(right, x => !HasIdentity(left, x), x);
  }

  /** Both lists of the partition keep the order of the side they are taken from. */
  lemma PartitionKeepsOrder(l1: seq<Collection>, l2: seq<Collection>, right: seq<Collection>)
    ensures Partition(l1 + l2, right).create == Partition(l1, right).create + Partition(l2, right).create
    ensures Partition(right, l1 + l2).delete == Partition(right, l1).delete + Partition(right, l2).delete
  {
    FilterConcat(l1, l2, x => !HasIdentity(right, x));
  }

  /** Sides with the same (name, type) identities need nothing created or deleted. */
  lemma PartitionOfSameIdentities(left: seq<Collection>, right: seq<Collection>)
    requires forall i :: 0 <= i < |left| ==> exists j :: 0 <= j < |right| && SameIdentity(right[j], left[i])
    requires forall j :: 0 <= j < |right| ==> exists i :: 0 <= i < |left| && SameIdentity(left[i], right[j])
    ensures Partition(left, right) == Delta([], [])
  {
    forall i | 0 <= i < |left| ensures HasIdentity(right, left[i]) {
      HasIdentityExists(right, left[i]);
    }
    forall j | 0 <= j < |right| ensures HasIdentity(left, right[j]) {
      HasIdentityExists(left, right[j]);
    }
    FilterKeepsNone(left, x => !HasIdentity(right, x));
    FilterKeepsNone(right, x => !HasIdentity(left, x));
  }

  predicate UniqueNames(cs: seq<Collection>) {
    forall i, j :: 0 <= i < j < |cs| ==> cs[i].name != cs[j].name
  }

  /** A name that both sides hold with different types is in both lists: there is no
      "change type" outcome. */
  lemma PartitionTypeClash(left: seq<Collection>, right: seq<Collection>, i: nat, j: nat)
    requires UniqueNames(left) && UniqueNames(right)
    requires i < |left| && j < |right|
    requires left[i].name == right[j].name && left[i].kind != right[j].kind
    ensures left[i] in Partition(left, right).create
    ensures right[j] in Partition(left, right).delete
  {
    PartitionMembership(left, right, left[i]);
    PartitionMembership(left, right, right[j]);
  }

  /** The state of the checksum loop of `compare_collections` after some collections:
      the mismatches so far, how many collections were compared (each once reported to
      the callback), and the error that stopped the loop, if any. */
  datatype Scan = Scan(mismatches: seq<Collection>, compared: nat, failure: Option<ClientError>)

  function ScanChecksums(cols: seq<Collection>, mine: string -> Option<string>, theirs: string -> Option<string>): Scan
    decreases |cols|
  {
    if cols == [] then Scan([], 0, None)
    else ScanOne(ScanChecksums(cols[..|cols| - 1], mine, theirs), cols[|cols| - 1], mine, theirs)
  }

  /** One pass of the comparison loop: "migrations" is skipped, a failed checksum request
      stops the loop, and otherwise the collection is compared. */
  function ScanOne(prev: Scan, c: Collection, mine: string -> Option<string>, theirs: string -> Option<string>): Scan {
    if prev.failure.Some? || c.name == "migrations" then prev
    else if mine(c.name).None? || theirs(c.name).None? then prev.(failure := Some(ChecksumFailed(c.name)))
    else Scan(if mine(c.name) != theirs(c.name) then prev.mismatches + [c] else prev.mismatches,
              prev.compared + 1, None)
  }

  predicate IsCompared(c: Collection) {
    c.name != "migrations"
  }

  /** One more turn of the checksum loop. */
  lemma ScanStep(cols: seq<Collection>, i: nat, mine: string -> Option<string>, theirs: string -> Option<string>)
    requires i < |cols|
    ensures ScanChecksums(cols[..i + 1], mine, theirs) == ScanOne(ScanChecksums(cols[..i], mine, theirs), cols[i], mine, theirs)
  {
    assert cols[..i + 1][..i] == cols[..i];
  }

  /** Once a checksum request has failed, later collections change nothing. */
  lemma {:induction false} ScanStopsAtFailure(cols: seq<Collection>, k: nat, mine: string -> Option<string>, theirs: string -> Option<string>)
    requires k <= |cols|
    requires ScanChecksums(cols[..k], mine, theirs).failure.Some?
    ensures ScanChecksums(cols, mine, theirs) == ScanChecksums(cols[..k], mine, theirs)
    decreases |cols| - k
  {
    if k < |cols| {
      assert cols[..|cols| - 1][..k] == cols[..k];
      ScanStopsAtFailure(cols[..|cols| - 1], k, mine, theirs);
    } else {
      assert cols[..k] == cols;
    }
  }

  /** A loop that runs to the end has compared every collection but `migrations`, and
      its mismatches are, in order, those whose two checksums differ. */
  lemma {:induction false} ScanChecksumsComplete(cols: seq<Collection>, mine: string -> Option<string>, theirs: string -> Option<string>)
    ensures var s := ScanChecksums(cols, mine, theirs);
      s.failure.None? <==> forall i :: 0 <= i < |cols| && IsCompared(cols[i]) ==> mine(cols[i].name).Some? && theirs(cols[i].name).Some?
    ensures var s := ScanChecksums(cols, mine, theirs);
      s.failure.None? ==>
        && s.mismatches == Filter(cols, c => IsCompared(c) && mine(c.name) != theirs(c.name))
        && s.compared == |Filter(cols, IsCompared)|
    decreases |cols|
  {
    if cols != [] {
      var front, c := cols[..|cols| - 1], cols[|cols| - 1];
      assert cols == front + [c];
      ScanChecksumsComplete(front, mine, theirs);
      FilterSnoc(front, c, c => IsCompared(c) && mine(c.name) != theirs(c.name));
      FilterSnoc(front, c, IsCompared);
      var prev := ScanChecksums(front, mine, theirs);
      if prev.failure.Some? {
        var i :| 0 <= i < |front| && IsCompared(front[i]) && !(mine(front[i].name).Some? && theirs(front[i].name).Some?);
        assert cols[i] == front[i];
      }
    }
  }

  /** A loop stopped by an error stopped at the first compared collection whose checksum
      failed on either side, after reporting exactly the collections before it. */
  lemma {:induction false} ScanChecksumsFailure(cols: seq<Collection>, mine: string -> Option<string>, theirs: string -> Option<string>)
    requires ScanChecksums(cols, mine, theirs).failure.Some?
    ensures exists k :: (0 <= k < |cols| && IsCompared(cols[k])
      && (mine(cols[k].name).None? || theirs(cols[k].name).None?)
      && ScanChecksums(cols[..k], mine, theirs).failure.None?
      && ScanChecksums(cols, mine, theirs) == ScanChecksums(cols[..k], mine, theirs).(failure := Some(ChecksumFailed(cols[k].name))))
    decreases |cols|
  {
    var front, c := cols[..|cols| - 1], cols[|cols| - 1];
    var prev := ScanChecksums(front, mine, theirs);
    if prev.failure.Some? {
      ScanChecksumsFailure(front, mine, theirs);
      var k :| 0 <= k < |front| && IsCompared(front[k])
        && (mine(front[k].name).None? || theirs(front[k].name).None?)
        && ScanChecksums(front[..k], mine, theirs).failure.None?
        && prev == ScanChecksums(front[..k], mine, theirs).(failure := Some(ChecksumFailed(front[k].name)));
      assert front[..k] == cols[..k];
      assert cols[k] == front[k];
    } else {
      assert cols[..|cols| - 1] == front;
    }
  }

  /** Membership in the mismatch list, when the loop runs to the end: both directions. */
  lemma MismatchMembership(cols: seq<Collection>, mine: string -> Option<string>, theirs: string -> Option<string>, c: Collection)
    requires ScanChecksums(cols, mine, theirs).failure.None?
    ensures c in ScanChecksums(cols, mine, theirs).mismatches <==> c in cols && c.name != "migrations" && mine(c.name) != theirs(c.name)
  {
    ScanChecksumsComplete(cols, mine, theirs);
    FilterMembership(cols, c => IsCompared(c) && mine(c.name) != theirs(c.name), c);
  }

  /** What `compare_collections` returns when `reference` is `self` and `compared` is `other`. */
  function CompareResult(reference: Database, compared: Database): Result<Comparison, ClientError> {
    var scan := ScanChecksums(ListedCollections(reference), reference.checksum, compared.checksum);
    if scan.failure.Some? then Err(scan.failure.value)
    else
      var delta := Partition(ListedCollections(compared), ListedCollections(reference));
      Ok(Comparison(scan.mismatches, delta.create, delta.delete))
  }

  /** How many times `compare_collections` invokes its callback. */
  function CallbackCount(reference: Database, compared: Database): nat {
    ScanChecksums(ListedCollections(reference), reference.checksum, compared.checksum).compared
  }

  /** A deployment answers a checksum request only for a collection it has: asking for
      any other name raises. */
  ghost predicate ChecksumsOfListed(db: Database) {
    forall name :: db.checksum(name).Some? ==> exists i :: 0 <= i < |db.collections| && db.collections[i].name == name
  }

  /** Because the loop asks the compared side for the checksum of every reference
      collection but `migrations`, a comparison that succeeds can only put into "delete"
      `migrations` or a collection the compared side holds under the same name with
      another type. */
  lemma DeleteOnlyClashes(reference: Database, compared: Database)
    requires ChecksumsOfListed(compared)
    requires CompareResult(reference, compared).Ok?
    ensures forall c :: c in CompareResult(reference, compared).value.delete ==>
      c.name == "migrations" || exists d :: d in ListedCollections(compared) && d.name == c.name && d.kind != c.kind
  {
    var refs, cmps := ListedCollections(reference), ListedCollections(compared);
    assert CompareResult(reference, compared).value.delete == Partition(cmps, refs).delete;
    ScanChecksumsComplete(refs, reference.checksum, compared.checksum);
    forall c | c in Partition(cmps, refs).delete && c.name != "migrations"
      ensures exists d :: d in cmps && d.name == c.name && d.kind != c.kind
    {
      PartitionMembership(cmps, refs, c);
      var k :| 0 <= k < |refs| && refs[k] == c;
      assert IsCompared(refs[k]);
      assert compared.checksum(c.name).Some?;
      var j :| 0 <= j < |compared.collections| && compared.collections[j].name == c.name;
      var d := compared.collections[j];
      assert Visible(d) by { assert Visible(refs[k]); }
      SortByPermutation(compared.collections, ByIdLe);
      assert d in multiset(SortBy(compared.collections, ByIdLe));
      FilterMembership(SortBy(compared.collections, ByIdLe), Visible, d);
      var m :| 0 <= m < |cmps| && cmps[m] == d;
      assert !SameIdentity(cmps[m], c);
    }
  }

  class ArangoClient {
    const url: string
    const database: string
    const username: Option<string>
    const password: Option<string>
    const needAuth: bool
    const db: Database

    constructor (url: string, database: string, username: Option<string>, password: Option<string>, needAuth: bool, db: Database)
      ensures this.url == url && this.database == database
      ensures this.username == username && this.password == password
      ensures this.needAuth == needAuth && this.db == db
    {
      this.url := url;
      this.database := database;
      this.username := username;
      this.password := password;
      this.needAuth := needAuth;
      this.db := db;
    }

    /** `get_all_collections(sort_by_id)`; `ListedCollectionsSpec` states what the list holds. */
    method GetAllCollections(sortById: bool) returns (r: seq<Collection>)
      ensures r == if sortById then ListedCollections(db) else Filter(db.collections, Visible)
    {
      var collections := db.collections;
      if sortById {
        collections := SortBy(collections, ByIdLe);
      }
      r := Filter(collections, Visible);
    }

    /** `get_all_documents(name)` as written: the documents of the first batch only,
        sorted stably by `_id`. */
    method GetAllDocumentsAsWritten(name: string) returns (docs: seq<Json>)
      ensures multiset(docs) == multiset(FirstBatch(db, name))
      ensures SortedBy(docs, DocumentLe)
      ensures docs == FirstBatchDocuments(db, name)
    {
      var cursor := new Cursor(FirstBatch(db, name), LaterBatches(db, name));
      var fetched := DrainCursor(cursor);
      docs := SortBy(fetched, DocumentLe);
      DocumentPreorder();
      SortBySorted(fetched, DocumentLe);
      SortByPermutation(fetched, DocumentLe);
    }

    /** `get_all_documents(name)` with the cursor drained batch by batch: every document
        of the collection, sorted stably by `_id`. */
    method GetAllDocuments(name: string) returns (docs: seq<Json>)
      ensures multiset(docs) == multiset(AllDocuments(db, name))
      ensures SortedBy(docs, DocumentLe)
      ensures docs == SortedDocuments(db, name)
    {
      var cursor := new Cursor(FirstBatch(db, name), LaterBatches(db, name));
      var fetched := DrainAll(cursor);
      assert fetched == AllDocuments(db, name) by {
        var bs := db.batches(name);
        if bs != [] {
          assert Flatten(bs) == bs[0] + Flatten(bs[1..]);
        }
      }
      docs := SortBy(fetched, DocumentLe);
      DocumentPreorder();
      SortBySorted(fetched, DocumentLe);
      SortByPermutation(fetched, DocumentLe);
    }

    /** `self.compare_collections(other, on_collection_compared)`. Note the argument order
        of the partition: the compared side is `left`, this (reference) side is `right`. */
    method CompareCollections(other: ArangoClient, onCompared: Trace) returns (r: Result<Comparison, ClientError>)
      modifies onCompared
      ensures r == CompareResult(db, other.db)
      ensures onCompared.events == old(onCompared.events) + Callbacks(CallbackCount(db, other.db))
    {
      var selfCollections := GetAllCollections(true);
      var otherCollections := other.GetAllCollections(true);
      var mismatches, failure := CompareChecksums(other, selfCollections, onCompared);
      if failure.Some? {
        r := Err(failure.value);
        return;
      }
      var delta := Partition(otherCollections, selfCollections);
      r := Ok(Comparison(mismatches, delta.create, delta.delete));
    }

    /** The checksum loop of `compare_collections` over `collections`; a failed checksum
        request ends it with that error. */
    method CompareChecksums(other: ArangoClient, collections: seq<Collection>, onCompared: Trace)
      returns (mismatches: seq<Collection>, failure: Option<ClientError>)
      modifies onCompared
      ensures var scan := ScanChecksums(collections, db.checksum, other.db.checksum);
        mismatches == scan.mismatches && failure == scan.failure
      ensures onCompared.events == old(onCompared.events) + Callbacks(ScanChecksums(collections, db.checksum, other.db.checksum).compared)
    {
      mismatches, failure := [], None;
      ghost var compared: nat := 0;
      for i := 0 to |collections|
        invariant ScanChecksums(collections[..i], db.checksum, other.db.checksum) == Scan(mismatches, compared, None)
        invariant onCompared.events == old(onCompared.events) + Callbacks(compared)
      {
        ScanStep(collections, i, db.checksum, other.db.checksum);
        var failed;
        ghost var more;
        mismatches, more, failed := CompareOne(other, collections[i], mismatches, compared, onCompared);
        if failed {
          ScanStopsAtFailure(collections, i + 1, db.checksum, other.db.checksum);
          failure := Some(ChecksumFailed(collections[i].name));
          return;
        }
        CallbacksMore(compared, more);
        AppendAssociative(old(onCompared.events), Callbacks(compared), Callbacks(more));
        compared := compared + more;
      }
      assert collections[..|collections|] == collections;
    }

    /** One turn of the loop of `compare_collections`: `more` is 1 when the collection was
        compared (and the callback invoked), 0 when it was skipped; `failed` when a checksum
        request failed. */
    method CompareOne(other: ArangoClient, collection: Collection, mismatches: seq<Collection>, ghost compared: nat, onCompared: Trace)
      returns (newMismatches: seq<Collection>, ghost more: nat, failed: bool)
      modifies onCompared
      ensures more <= 1
      ensures ScanOne(Scan(mismatches, compared, None), collection, db.checksum, other.db.checksum)
           == Scan(newMismatches, compared + more, if failed then Some(ChecksumFailed(collection.name)) else None)
      ensures onCompared.events == old(onCompared.events) + Callbacks(more)
    {
      newMismatches, more, failed := mismatches, 0, false;
      if collection.name != "migrations" {
        var selfChecksum := db.checksum(collection.name);
        var otherChecksum := other.db.checksum(collection.name);
        if selfChecksum.None? || otherChecksum.None? {
          failed := true;
          return;
        }
        if selfChecksum != otherChecksum {
          newMismatches := mismatches + [collection];
        }
        onCompared.Record(CallbackInvoked);
        more := 1;
      }
    }
  }
}

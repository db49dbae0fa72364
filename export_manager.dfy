/** The dump side: one JSON file per visible collection, named by a counter that the
    manager increments per file written. `dumps` stands for `json.dumps`. */
module ExportManagers {
  import opened Json
  import opened Digits
  import opened Effects
  import opened Seqs
  import ArangoClients

  const Suffix: string := ".json"

  /** The zero-padded counter that opens a file name. */
  function Padded(counter: nat): string {
    ZeroPad(Decimal(counter), 16)
  }

  /** The padded counter is at least sixteen digits and nothing else. */
  lemma PaddedDigits(counter: nat)
    ensures |Padded(counter)| >= 16 && AllDigits(Padded(counter))
  {
  }

  /** `f"{counter:016}_{collection_name}.json"`. */
  function FileName(counter: nat, name: string): string {
    Padded(counter) + "_" + name + Suffix
  }

  /** `os.path.join(directory, file_name)` for a file name that does not start with '/'. */
  function Join(directory: string, file: string): string {
    if directory == [] || directory[|directory| - 1] == '/' then directory + file
    else directory + "/" + file
  }

  /** The first position of `s` holding no digit. */
  function FirstNonDigit(s: string): (k: nat)
    ensures k <= |s|
    decreases |s|
  {
    if s == [] || !IsDigit(s[0]) then 0 else 1 + FirstNonDigit(s[1..])
  }

  lemma {:induction false} FirstNonDigitAfter(digits: string, rest: string)
    requires AllDigits(digits) && rest != [] && !IsDigit(rest[0])
    ensures FirstNonDigit(digits + rest) == |digits|
    decreases |digits|
  {
    if digits == [] {
      assert digits + rest == rest;
    } else {
      assert (digits + rest)[1..] == digits[1..] + rest;
      assert AllDigits(digits[1..]) by {
        assert forall i :: 0 <= i < |digits| - 1 ==> digits[1..][i] == digits[i + 1];
      }
      FirstNonDigitAfter(digits[1..], rest);
    }
  }

  /** Where the counter and the collection name sit in a file name. */
  lemma FileNameParts(m: nat, a: string)
    ensures var f, p := FileName(m, a), Padded(m);
      && |f| == |p| + 1 + |a| + |Suffix|
      && FirstNonDigit(f) == |p|
      && f[..|p|] == p
      && f[|p| + 1..|f| - |Suffix|] == a
  {
    var p := Padded(m);
    var f := FileName(m, a);
    PaddedDigits(m);
    assert f == p + ("_" + a + Suffix);
    FirstNonDigitAfter(p, "_" + a + Suffix);
  }

  /** Reading a file name back: the leading digits give the counter, and what lies
      between the `_` after them and `.json` is the collection name. */
  lemma FileNameRoundTrip(m: nat, a: string)
    ensures var f := FileName(m, a);
      && FirstNonDigit(f) < |f| - |Suffix|
      && AllDigits(f[..FirstNonDigit(f)])
      && DigitsValue(f[..FirstNonDigit(f)]) == m
      && f[|f| - |Suffix|..] == Suffix
      && f[FirstNonDigit(f) + 1..|f| - |Suffix|] == a
  {
    var f, p := FileName(m, a), Padded(m);
    FileNameParts(m, a);
    PaddedDigits(m);
    assert f == p + "_" + a + Suffix;
    ZeroPadValue(Decimal(m), 16);
    DecimalValue(m);
  }

  /** A file name determines the counter and the collection name it was made from. */
  lemma FileNameInjective(m: nat, n: nat, a: string, b: string)
    requires FileName(m, a) == FileName(n, b)
    ensures m == n && a == b
  {
    FileNameParts(m, a);
    FileNameParts(n, b);
    assert Padded(m) == Padded(n);
    PaddedDecimalInjective(m, n, 16);
  }

  /** Different file names stay different under one directory. */
  lemma JoinInjective(directory: string, f: string, g: string)
    requires Join(directory, f) == Join(directory, g)
    ensures f == g
  {
    var p := if directory == [] || directory[|directory| - 1] == '/' then directory else directory + "/";
    assert Join(directory, f) == p + f && Join(directory, g) == p + g;
    assert f == Join(directory, f)[|p|..] == g;
  }

  /** The write of collection `c`'s file numbered `counter`, as `make_migration_files`
      does it: with what `get_all_documents` returns as written, the first batch. */
  function ExportWrite(directory: string, db: ArangoClients.Database, c: ArangoClients.Collection,
                       counter: nat, dumps: Json -> string): Event
  {
    FileWritten(ExportPath(directory, c, counter), dumps(JArray(ArangoClients.FirstBatchDocuments(db, c.name))))
  }

  /** The same write with every batch of the collection read. */
  function ExportWriteAllBatches(directory: string, db: ArangoClients.Database, c: ArangoClients.Collection,
                                 counter: nat, dumps: Json -> string): Event
  {
    FileWritten(ExportPath(directory, c, counter), dumps(JArray(ArangoClients.SortedDocuments(db, c.name))))
  }

  /** The two writes go to the same path, and they agree on a collection that fits in one
      batch. */
  lemma ExportWriteAgrees(directory: string, db: ArangoClients.Database, c: ArangoClients.Collection,
                          counter: nat, dumps: Json -> string)
    ensures ExportWrite(directory, db, c, counter, dumps).path == ExportWriteAllBatches(directory, db, c, counter, dumps).path
    ensures |db.batches(c.name)| <= 1 ==> ExportWrite(directory, db, c, counter, dumps) == ExportWriteAllBatches(directory, db, c, counter, dumps)
  {
    if |db.batches(c.name)| <= 1 {
      ArangoClients.OneBatchAgrees(db, c.name);
    }
  }

  /** Where collection `c`'s file numbered `counter` goes. */
  function ExportPath(directory: string, c: ArangoClients.Collection, counter: nat): string {
    Join(directory, FileName(counter, c.name))
  }

  /** The write of collection `c`'s file numbered `counter`, for each collection and counter. */
  function Writer(directory: string, db: ArangoClients.Database, dumps: Json -> string): (ArangoClients.Collection, nat) -> Event {
    (c: ArangoClients.Collection, counter: nat) => ExportWrite(directory, db, c, counter, dumps)
  }

  /** The effects of exporting `collections` with the counter at `start`: for each one a
      file write and then a callback. */
  function ExportEvents(collections: seq<ArangoClients.Collection>, start: nat,
                        write: (ArangoClients.Collection, nat) -> Event): seq<Event>
    decreases |collections|
  {
    if collections == [] then []
    else
      var n := |collections| - 1;
      ExportEvents(collections[..n], start, write) + [write(collections[n], start + n), CallbackInvoked]
  }

  /** Event `2i` writes the file of collection `i`, numbered `start + i`; event `2i+1` is
      its callback. */
  lemma {:induction false} ExportEventsShape(collections: seq<ArangoClients.Collection>, start: nat,
                                             write: (ArangoClients.Collection, nat) -> Event)
    ensures |ExportEvents(collections, start, write)| == 2 * |collections|
    ensures forall i :: 0 <= i < |collections| ==> ExportEvents(collections, start, write)[2 * i] == write(collections[i], start + i)
    ensures forall i :: 0 <= i < |collections| ==> ExportEvents(collections, start, write)[2 * i + 1] == CallbackInvoked
    decreases |collections|
  {
    if collections != [] {
      var n := |collections| - 1;
      var front := ExportEvents(collections[..n], start, write);
      var all := ExportEvents(collections, start, write);
      ExportEventsShape(collections[..n], start, write);
      forall i | 0 <= i < n
        ensures all[2 * i] == write(collections[i], start + i)
        ensures all[2 * i + 1] == CallbackInvoked
      {
        assert collections[..n][i] == collections[i];
        assert all[2 * i] == front[2 * i] && all[2 * i + 1] == front[2 * i + 1];
      }
    }
  }

  /** Event `2i` of an export, on its own. */
  lemma ExportEventAt(collections: seq<ArangoClients.Collection>, start: nat,
                      write: (ArangoClients.Collection, nat) -> Event, i: nat)
    requires i < |collections|
    ensures |ExportEvents(collections, start, write)| == 2 * |collections|
    ensures ExportEvents(collections, start, write)[2 * i] == write(collections[i], start + i)
  {
    ExportEventsShape(collections, start, write);
  }

  lemma ExportEventsStep(directory: string, db: ArangoClients.Database, dumps: Json -> string,
                         collections: seq<ArangoClients.Collection>, start: nat, i: nat)
    requires i < |collections|
    ensures ExportEvents(collections[..i + 1], start, Writer(directory, db, dumps))
         == ExportEvents(collections[..i], start, Writer(directory, db, dumps))
            + [ExportWrite(directory, db, collections[i], start + i, dumps), CallbackInvoked]
  {
    assert collections[..i + 1][..i] == collections[..i];
  }

  lemma WriterApplied(directory: string, db: ArangoClients.Database, dumps: Json -> string, c: ArangoClients.Collection, counter: nat)
    ensures Writer(directory, db, dumps)(c, counter) == ExportWrite(directory, db, c, counter, dumps)
  {
  }

  lemma ExportWritePath(directory: string, db: ArangoClients.Database, c: ArangoClients.Collection, counter: nat, dumps: Json -> string)
    ensures ExportWrite(directory, db, c, counter, dumps).FileWritten?
    ensures ExportWrite(directory, db, c, counter, dumps).path == ExportPath(directory, c, counter)
  {
  }

  /** Files with different numbers have different paths. */
  lemma ExportPathsDistinct(directory: string, a: ArangoClients.Collection, b: ArangoClients.Collection, m: nat, n: nat)
    requires m != n
    ensures ExportPath(directory, a, m) != ExportPath(directory, b, n)
  {
    var fa, fb := FileName(m, a.name), FileName(n, b.name);
    if Join(directory, fa) == Join(directory, fb) {
      JoinInjective(directory, fa, fb);
      FileNameInjective(m, n, a.name, b.name);
    }
  }

  /** Two files written with different paths show up as such in the export's events. */
  lemma EventsApart(collections: seq<ArangoClients.Collection>, start: nat,
                    write: (ArangoClients.Collection, nat) -> Event, i: nat, j: nat)
    requires i < j < |collections|
    requires write(collections[i], start + i).FileWritten? && write(collections[j], start + j).FileWritten?
    requires write(collections[i], start + i).path != write(collections[j], start + j).path
    ensures |ExportEvents(collections, start, write)| == 2 * |collections|
    ensures ExportEvents(collections, start, write)[2 * i].FileWritten?
    ensures ExportEvents(collections, start, write)[2 * j].FileWritten?
    ensures ExportEvents(collections, start, write)[2 * i].path != ExportEvents(collections, start, write)[2 * j].path
  {
    ExportEventAt(collections, start, write, i);
    ExportEventAt(collections, start, write, j);
  }

  /** Event `2i` of an export writes the file of collection `i`, numbered `start + i`. */
  lemma ExportedFile(directory: string, db: ArangoClients.Database, collections: seq<ArangoClients.Collection>,
                     start: nat, dumps: Json -> string, i: nat)
    requires i < |collections|
    ensures |ExportEvents(collections, start, Writer(directory, db, dumps))| == 2 * |collections|
    ensures ExportEvents(collections, start, Writer(directory, db, dumps))[2 * i] == ExportWrite(directory, db, collections[i], start + i, dumps)
    ensures ExportEvents(collections, start, Writer(directory, db, dumps))[2 * i].path == ExportPath(directory, collections[i], start + i)
  {
    ExportEventAt(collections, start, Writer(directory, db, dumps), i);
    WriterApplied(directory, db, dumps, collections[i], start + i);
    ExportWritePath(directory, db, collections[i], start + i, dumps);
  }

  /** No two files of one export share a path. */
  lemma ExportWrites(directory: string, db: ArangoClients.Database, collections: seq<ArangoClients.Collection>,
                     start: nat, dumps: Json -> string, i: nat, j: nat)
    requires i < j < |collections|
    ensures |ExportEvents(collections, start, Writer(directory, db, dumps))| == 2 * |collections|
    ensures ExportEvents(collections, start, Writer(directory, db, dumps))[2 * i].FileWritten?
    ensures ExportEvents(collections, start, Writer(directory, db, dumps))[2 * j].FileWritten?
    ensures ExportEvents(collections, start, Writer(directory, db, dumps))[2 * i].path
         != ExportEvents(collections, start, Writer(directory, db, dumps))[2 * j].path
  {
    WriterApplied(directory, db, dumps, collections[i], start + i);
    WriterApplied(directory, db, dumps, collections[j], start + j);
    ExportWritePath(directory, db, collections[i], start + i, dumps);
    ExportWritePath(directory, db, collections[j], start + j, dumps);
    ExportPathsDistinct(directory, collections[i], collections[j], start + i, start + j);
    EventsApart(collections, start, Writer(directory, db, dumps), i, j);
  }

  class ExportManager {
    const client: ArangoClients.ArangoClient
    const migrationPath: string
    var counter: nat

    constructor (client: ArangoClients.ArangoClient, migrationPath: string)
      ensures this.client == client && this.migrationPath == migrationPath && counter == 1
    {
      this.client := client;
      this.migrationPath := migrationPath;
      counter := 1;
    }

    /** `make_migration_files`; `onCollectionExported` records the callback's calls. */
    method MakeMigrationFiles(dumps: Json -> string, onCollectionExported: Trace)
      modifies this, onCollectionExported
      ensures counter == old(counter) + |ArangoClients.ListedCollections(client.db)|
      ensures onCollectionExported.events
        == old(onCollectionExported.events)
           + ExportEvents(ArangoClients.ListedCollections(client.db), old(counter), Writer(migrationPath, client.db, dumps))
    {
      var collections := client.GetAllCollections(true);
      ExportAll(collections, dumps, onCollectionExported);
    }

    /** The loop of `make_migration_files` over the listed `collections`. */
    method ExportAll(collections: seq<ArangoClients.Collection>, dumps: Json -> string, onCollectionExported: Trace)
      modifies this, onCollectionExported
      ensures counter == old(counter) + |collections|
      ensures onCollectionExported.events
        == old(onCollectionExported.events) + ExportEvents(collections, old(counter), Writer(migrationPath, client.db, dumps))
    {
      ghost var start := counter;
      ghost var base := onCollectionExported.events;
      for i := 0 to |collections|
        invariant counter == start + i
        invariant onCollectionExported.events == base + ExportEvents(collections[..i], start, Writer(migrationPath, client.db, dumps))
      {
        ghost var done := ExportEvents(collections[..i], start, Writer(migrationPath, client.db, dumps));
        ghost var next := [ExportWrite(migrationPath, client.db, collections[i], start + i, dumps), CallbackInvoked];
        ExportEventsStep(migrationPath, client.db, dumps, collections, start, i);
        AppendAssociative(base, done, next);
        ExportCollection(collections[i], dumps, onCollectionExported);
        assert onCollectionExported.events == (base + done) + next;
      }
      assert collections[..|collections|] == collections;
    }

    /** One pass of the loop of `make_migration_files`: the file of one collection, then the
        callback. */
    method ExportCollection(collection: ArangoClients.Collection, dumps: Json -> string, onCollectionExported: Trace)
      modifies this, onCollectionExported
      ensures counter == old(counter) + 1
      ensures onCollectionExported.events
        == old(onCollectionExported.events) + [ExportWrite(migrationPath, client.db, collection, old(counter), dumps), CallbackInvoked]
    {
      var documents := client.GetAllDocumentsAsWritten(collection.name);
      var jsonContent := dumps(JArray(documents));
      WriteMigrationFile(GenerateFileName(collection.name), jsonContent, onCollectionExported);
      onCollectionExported.Record(CallbackInvoked);
    }

    /** The same pass with every batch of the collection read. */
    method ExportCollectionAllBatches(collection: ArangoClients.Collection, dumps: Json -> string, onCollectionExported: Trace)
      modifies this, onCollectionExported
      ensures counter == old(counter) + 1
      ensures onCollectionExported.events
        == old(onCollectionExported.events) + [ExportWriteAllBatches(migrationPath, client.db, collection, old(counter), dumps), CallbackInvoked]
    {
      var documents := client.GetAllDocuments(collection.name);
      var jsonContent := dumps(JArray(documents));
      WriteMigrationFile(GenerateFileName(collection.name), jsonContent, onCollectionExported);
      onCollectionExported.Record(CallbackInvoked);
    }

    /** `__write_migration_file`: one write under the migration directory, then the
        counter moves on. */
    method WriteMigrationFile(fileName: string, jsonContent: string, log: Trace)
      modifies this, log
      ensures log.events == old(log.events) + [FileWritten(Join(migrationPath, fileName), jsonContent)]
      ensures counter == old(counter) + 1
    {
      log.Record(FileWritten(Join(migrationPath, fileName), jsonContent));
      counter := counter + 1;
    }

    /** `__generate_file_name`. */
    function GenerateFileName(collectionName: string): (f: string)
      reads this
      ensures FirstNonDigit(f) < |f| - |Suffix| && AllDigits(f[..FirstNonDigit(f)])
      ensures DigitsValue(f[..FirstNonDigit(f)]) == counter
      ensures f[FirstNonDigit(f) + 1..|f| - |Suffix|] == collectionName && f[|f| - |Suffix|..] == Suffix
    {
      FileNameRoundTrip(counter, collectionName);
      FileName(counter, collectionName)
    }
  }
}

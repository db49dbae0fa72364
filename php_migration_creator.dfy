/** The fixed-format PHP migration emitter: a fixed head, one code fragment per added or
    removed row, and a fixed footer whose `down()` is empty. `dumps` stands for
    `json.dumps`. */
module PhpMigrationCreators {
  import opened Json
  import opened PyDicts
  import opened DiffRows
  import opened Seqs

  const FileHead: string :=
    "<?php\n\nuse Database\\ArangoMigration;\nuse ArangoDBClient\\Collection as ArangoCollection;\n"
    + "use ArangoDBClient\\Document as ArangoDocument;\n\n// Auto-generated migration file.\n"
    + "return new class extends ArangoMigration\n{\n    /**\n     * Run the migrations.\n     */\n"
    + "    public function up(): void\n    {\n    "

  /** The tail of the file from the end of `down()`'s signature on. */
  const DownSection: string := "    public function down(): void\n    {\n    }\n};\n    "

  /** The footer up to `down()`'s signature: the end of `up()` and the doc comment of `down()`. */
  const DownHeader: string := "\n    }\n\n    /**\n     * Reverse the migrations.\n     */\n"

  const FileFooter: string := DownHeader + DownSection

  const Indent16: string := "                "
  const Indent20: string := Indent16 + "    "

  /** `s` occurs in `text` at position `i`. */
  predicate OccursAt(text: string, s: string, i: nat) {
    i + |s| <= |text| && text[i..i + |s|] == s
  }

  /** `s` occurs in `text`. */
  predicate Contains(text: string, s: string) {
    exists i: nat :: i <= |text| && OccursAt(text, s, i)
  }

  lemma ContainsSuffix(t: string, s: string)
    ensures Contains(t + s, s)
  {
    assert OccursAt(t + s, s, |t|);
  }

  lemma ContainsExtend(t: string, s: string, u: string)
    requires Contains(t, s)
    ensures Contains(t + u, s)
  {
    var i: nat :| i <= |t| && OccursAt(t, s, i);
    assert (t + u)[i..i + |s|] == t[i..i + |s|];
    assert OccursAt(t + u, s, i);
  }

  /** The insert call of an added row. */
  function InsertCall(name: string): string {
    "$this->documentHandler->insert('" + name + "', $document, ['overwriteMode' => 'ignore']);"
  }

  /** The removeByExample call of a removed row. */
  function RemoveCall(name: string, dumped: string): string {
    "$this->collectionHandler->removeByExample('" + name + "', " + JsonDecode(dumped) + ", ['limit' => 1]);"
  }

  /** The PHP expression that decodes a dumped JSON value into an array. */
  function JsonDecode(dumped: string): string {
    "json_decode('" + dumped + "', true)"
  }

  const AddedStart: string := "\n" + Indent16 + "$document = ArangoDocument::createFromArray("

  function AddedFragment(name: string, dumped: string): string {
    AddedStart + JsonDecode(dumped) + ");\n" + Indent16 + InsertCall(name) + "\n" + Indent20
  }

  function RemovedFragment(name: string, dumped: string): string {
    "\n" + Indent16 + RemoveCall(name, dumped) + "\n" + Indent20
  }

  /** The text one row adds to `__create_action`'s result: only added and removed rows
      produce text; every other action is skipped without an error. */
  function RowText(name: string, row: Row, dumps: Json -> string): (r: string)
    ensures r == "" <==> row.action != ItemAdded && row.action != ItemRemoved
  {
    if row.action == ItemAdded then AddedFragment(name, dumps(row.value))
    else if row.action == ItemRemoved then RemovedFragment(name, dumps(row.value))
    else ""
  }

  /** The texts of some values, joined in order. */
  function Concat<T>(xs: seq<T>, f: T -> string): string
    decreases |xs|
  {
    if xs == [] then "" else Concat(xs[..|xs| - 1], f) + f(xs[|xs| - 1])
  }

  function RowFragment(name: string, dumps: Json -> string): Row -> string {
    (row: Row) => RowText(name, row, dumps)
  }

  /** The text of one collection's rows. */
  function RowsText(name: string, rows: seq<Row>, dumps: Json -> string): string {
    Concat(rows, RowFragment(name, dumps))
  }

  function CollectionFragment(dumps: Json -> string): ((string, seq<Row>)) -> string {
    (item: (string, seq<Row>)) => RowsText(item.0, item.1, dumps)
  }

  /** The text of the collections of a diff dict. */
  function ItemsText(items: seq<(string, seq<Row>)>, dumps: Json -> string): string {
    Concat(items, CollectionFragment(dumps))
  }

  lemma ConcatStep<T>(xs: seq<T>, i: nat, f: T -> string)
    requires i < |xs|
    ensures Concat(xs[..i + 1], f) == Concat(xs[..i], f) + f(xs[i])
  {
    assert xs[..i + 1][..i] == xs[..i];
  }

  lemma RowFragmentApplied(name: string, row: Row, dumps: Json -> string)
    ensures RowFragment(name, dumps)(row) == RowText(name, row, dumps)
  {
  }

  lemma CollectionFragmentApplied(item: (string, seq<Row>), dumps: Json -> string)
    ensures CollectionFragment(dumps)(item) == RowsText(item.0, item.1, dumps)
  {
  }

  lemma {:induction false} ConcatAppend<T>(a: seq<T>, b: seq<T>, f: T -> string)
    ensures Concat(a + b, f) == Concat(a, f) + Concat(b, f)
    decreases |b|
  {
    if b == [] {
      assert a + b == a;
    } else {
      var front, last := b[..|b| - 1], b[|b| - 1];
      assert (a + b)[..|a + b| - 1] == a + front;
      assert (a + b)[|a + b| - 1] == last;
      ConcatAppend(a, front, f);
      var x, y, z := Concat(a, f), Concat(front, f), f(last);
      assert (x + y) + z == x + (y + z);
    }
  }

  lemma {:induction false} ConcatNothing<T>(xs: seq<T>, f: T -> string)
    requires forall i :: 0 <= i < |xs| ==> f(xs[i]) == ""
    ensures Concat(xs, f) == ""
    decreases |xs|
  {
    if xs != [] {
      ConcatNothing(xs[..|xs| - 1], f);
    }
  }

  /** The file `create_migration` returns for a diff dict. */
  function MigrationText(diffDic: Dict<string, seq<Row>>, dumps: Json -> string): string
    requires diffDic.Valid()
  {
    FileHead + ItemsText(diffDic.Items(), dumps) + FileFooter
  }

  /** The text of several rows is the text of each in order. */
  lemma RowsTextConcat(name: string, a: seq<Row>, b: seq<Row>, dumps: Json -> string)
    ensures RowsText(name, a + b, dumps) == RowsText(name, a, dumps) + RowsText(name, b, dumps)
  {
    ConcatAppend(a, b, RowFragment(name, dumps));
  }

  /** The text of several collections is the text of each in dict order. */
  lemma ItemsTextConcat(a: seq<(string, seq<Row>)>, b: seq<(string, seq<Row>)>, dumps: Json -> string)
    ensures ItemsText(a + b, dumps) == ItemsText(a, dumps) + ItemsText(b, dumps)
  {
    ConcatAppend(a, b, CollectionFragment(dumps));
  }

  /** Rows whose action is neither added nor removed contribute no text. */
  lemma IgnoredRows(name: string, rows: seq<Row>, dumps: Json -> string)
    requires forall i :: 0 <= i < |rows| ==> rows[i].action != ItemAdded && rows[i].action != ItemRemoved
    ensures RowsText(name, rows, dumps) == ""
  {
    ConcatNothing(rows, RowFragment(name, dumps));
  }

  /** An added row inserts its document into its collection, ignoring a document that
      already exists; a removed row removes at most one document matching its value. */
  lemma FragmentShapes(name: string, row: Row, dumps: Json -> string)
    ensures row.action == ItemAdded ==> Contains(RowText(name, row, dumps), InsertCall(name))
    ensures row.action == ItemAdded ==> Contains(RowText(name, row, dumps), JsonDecode(dumps(row.value)))
    ensures row.action == ItemRemoved ==> Contains(RowText(name, row, dumps), RemoveCall(name, dumps(row.value)))
  {
    var d := dumps(row.value);
    if row.action == ItemAdded {
      var decoded := AddedStart + JsonDecode(d);
      ContainsSuffix(AddedStart, JsonDecode(d));
      ContainsExtend(decoded, JsonDecode(d), ");\n");
      ContainsExtend(decoded + ");\n", JsonDecode(d), Indent16);
      ContainsExtend(decoded + ");\n" + Indent16, JsonDecode(d), InsertCall(name));
      ContainsExtend(decoded + ");\n" + Indent16 + InsertCall(name), JsonDecode(d), "\n");
      ContainsExtend(decoded + ");\n" + Indent16 + InsertCall(name) + "\n", JsonDecode(d), Indent20);
      var inserted := decoded + ");\n" + Indent16 + InsertCall(name);
      ContainsSuffix(decoded + ");\n" + Indent16, InsertCall(name));
      ContainsExtend(inserted, InsertCall(name), "\n");
      ContainsExtend(inserted + "\n", InsertCall(name), Indent20);
    } else if row.action == ItemRemoved {
      ContainsSuffix("\n" + Indent16, RemoveCall(name, d));
      ContainsExtend("\n" + Indent16 + RemoveCall(name, d), RemoveCall(name, d), "\n");
      ContainsExtend("\n" + Indent16 + RemoveCall(name, d) + "\n", RemoveCall(name, d), Indent20);
    }
  }

  /** Every migration opens with the fixed head and ends with an empty `down()`. */
  lemma MigrationFrame(diffDic: Dict<string, seq<Row>>, dumps: Json -> string)
    requires diffDic.Valid()
    ensures |MigrationText(diffDic, dumps)| >= |FileHead| + |FileFooter|
    ensures MigrationText(diffDic, dumps)[..|FileHead|] == FileHead
    ensures MigrationText(diffDic, dumps)[|MigrationText(diffDic, dumps)| - |DownSection|..] == DownSection
  {
    var body := ItemsText(diffDic.Items(), dumps);
    AppendAssociative(FileHead, body, FileFooter);
    AppendHalves(FileHead, body + FileFooter);
    AppendAssociative(FileHead + body, DownHeader, DownSection);
    AppendHalves(FileHead + body + DownHeader, DownSection);
  }

  /** With no diffs the migration is the head directly followed by the footer. */
  lemma EmptyMigration(dumps: Json -> string)
    ensures MigrationText(Empty(), dumps) == FileHead + FileFooter
  {
    var e: Dict<string, seq<Row>> := Empty();
    assert e.Items() == [];
  }

  class PhpMigrationCreator {
    var diffDic: Dict<string, seq<Row>>

    ghost predicate Valid()
      reads this
    {
      diffDic.Valid()
    }

    constructor ()
      ensures Valid() && diffDic == Empty()
    {
      diffDic := Empty();
    }

    /** `add_diff`: a second diff for the same collection replaces the first in place. */
    method AddDiff(collectionName: string, diff: seq<Row>)
      requires Valid()
      modifies this
      ensures Valid() && diffDic == old(diffDic).Put(collectionName, diff)
    {
      diffDic := diffDic.Put(collectionName, diff);
    }

    /** `create_migration`; it changes nothing, so calling it again gives the same text. */
    method CreateMigration(dumps: Json -> string) returns (text: string)
      requires Valid()
      ensures text == MigrationText(diffDic, dumps)
    {
      var actions := CreateActions(dumps);
      text := FileHead + actions + FileFooter;
    }

    /** `__create_actions`: the fragments of every collection, in dict order. */
    method CreateActions(dumps: Json -> string) returns (actions: string)
      requires Valid()
      ensures actions == ItemsText(diffDic.Items(), dumps)
    {
      var items := diffDic.Items();
      actions := "";
      for i := 0 to |items|
        invariant actions == ItemsText(items[..i], dumps)
      {
        ConcatStep(items, i, CollectionFragment(dumps));
        CollectionFragmentApplied(items[i], dumps);
        var fragment := CreateAction(items[i].0, items[i].1, dumps);
        actions := actions + fragment;
      }
      assert items[..|items|] == items;
    }

    /** `__create_action`: the fragments of one collection's rows, in row order. */
    method CreateAction(collectionName: string, diffs: seq<Row>, dumps: Json -> string) returns (action: string)
      ensures action == RowsText(collectionName, diffs, dumps)
    {
      action := "";
      for i := 0 to |diffs|
        invariant action == RowsText(collectionName, diffs[..i], dumps)
      {
        ConcatStep(diffs, i, RowFragment(collectionName, dumps));
        RowFragmentApplied(collectionName, diffs[i], dumps);
        var diff := diffs[i];
        if diff.action == ItemAdded {
          action := action + AddedFragment(collectionName, dumps(diff.value));
        } else if diff.action == ItemRemoved {
          action := action + RemovedFragment(collectionName, dumps(diff.value));
        }
      }
      assert diffs[..|diffs|] == diffs;
    }
  }
}

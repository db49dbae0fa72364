/** The template-driven migration creator: collection changes and diff rows become typed
    actions appended to one list shared by every creator, and the actions are grouped by
    tag for the template. */
module MigrationCreators {
  import opened Wrappers
  import opened Json
  import opened Seqs
  import opened PyDicts
  import opened DiffRows
  import opened Actions
  import ArangoClients

  /** The exceptions the creator raises: an unknown diff action, a path too short to index
      (`IndexError`), and `.items()` on a value that is not a dict (`AttributeError`). */
  datatype CreatorError = UnsupportedAction(action: string) | PathIndexError | NotADict

  /** The actions appended so far, and the exception that stopped the appending, if any. */
  datatype Appended = Appended(actions: seq<Action>, failure: Option<CreatorError>)

  // ---------------------------------------------------------------- row mapping

  /** `{"id": path[0], "value": {path[1]: value}}` as a DOCUMENT_UPDATE. */
  function UpdateAction(name: string, row: Row): (r: Result<Action, CreatorError>)
    ensures r.Err? <==> |row.path| < 2
    ensures r.Err? ==> r.error == PathIndexError
    ensures r.Ok? ==> r.value.kind == DocumentUpdate && r.value.collectionName == name
    ensures r.Ok? ==> r.value.data.FieldUpdate? && r.value.data.id == row.path[0] && r.value.data.field == row.path[1]
  {
    if |row.path| < 2 then Err(PathIndexError)
    else Ok(Action(DocumentUpdate, FieldUpdate(row.path[0], row.path[1], row.value), name))
  }

  /** `__create_document_create_action`: a dict value is a whole document to create, any
      other value a field to set. */
  function DocumentCreateAction(name: string, row: Row): (r: Result<Action, CreatorError>)
    ensures r.Err? <==> !row.value.JObject? && |row.path| < 2
    ensures r.Ok? ==> r.value.collectionName == name
    ensures r.Ok? ==> (r.value.kind == DocumentCreate <==> row.value.JObject?)
    ensures r.Ok? ==> (r.value.kind == DocumentUpdate <==> !row.value.JObject?)
  {
    if row.value.JObject? then Ok(Action(DocumentCreate, DocumentValue(row.value), name))
    else UpdateAction(name, row)
  }

  /** One DOCUMENT_CREATE per entry of the `values_changed` mapping, in its order. */
  function ValueChangedActions(name: string, members: seq<(string, Json)>): (r: seq<Action>)
    ensures |r| == |members|
    ensures forall i :: 0 <= i < |r| ==> r[i] == Action(DocumentCreate, DocumentValue(members[i].1), name)
  {
    if members == [] then [] else ValueChangedActions(name, members[..|members| - 1]) + [Action(DocumentCreate, DocumentValue(members[|members| - 1].1), name)]
  }

  /** How many actions a row appends when it raises nothing. */
  function RowWeight(row: Row): nat {
    if row.action == ValueChanged && row.value.JObject? then |row.value.members| else 1
  }

  /** The actions one row of `__create_action_from_diff` appends, or what it raises. */
  function RowActions(name: string, row: Row): (r: Result<seq<Action>, CreatorError>)
    ensures r.Ok? ==> |r.value| == RowWeight(row)
    ensures r.Ok? ==> forall i :: 0 <= i < |r.value| ==> r.value[i].collectionName == name
    ensures r.Err? <==>
      || row.action !in {ItemAdded, ItemRemoved, TypeChanged, ValueChanged}
      || (row.action == ValueChanged && !row.value.JObject?)
      || ((row.action == TypeChanged || (row.action == ItemAdded && !row.value.JObject?)) && |row.path| < 2)
    ensures r.Err? && row.action !in {ItemAdded, ItemRemoved, TypeChanged, ValueChanged} ==> r.error == UnsupportedAction(row.action)
  {
    if row.action == ItemAdded then
      match DocumentCreateAction(name, row)
      case Ok(a) => Ok([a])
      case Err(e) => Err(e)
    else if row.action == ItemRemoved then
      Ok([Action(DocumentDelete, DocumentValue(row.value), name)])
    else if row.action == TypeChanged then
      match UpdateAction(name, row)
      case Ok(a) => Ok([a])
      case Err(e) => Err(e)
    else if row.action == ValueChanged then
      if row.value.JObject? then Ok(ValueChangedActions(name, row.value.members)) else Err(NotADict)
    else
      Err(UnsupportedAction(row.action))
  }

  /** The mapping table, row kind by row kind. */
  lemma RowMapping(name: string, row: Row)
    ensures row.action == ItemAdded && row.value.JObject? ==>
      RowActions(name, row) == Ok([Action(DocumentCreate, DocumentValue(row.value), name)])
    ensures (row.action == ItemAdded && !row.value.JObject?) || row.action == TypeChanged ==>
      |row.path| >= 2 ==> RowActions(name, row) == Ok([Action(DocumentUpdate, FieldUpdate(row.path[0], row.path[1], row.value), name)])
    ensures row.action == ItemRemoved ==>
      RowActions(name, row) == Ok([Action(DocumentDelete, DocumentValue(row.value), name)])
    ensures row.action == ValueChanged && row.value.JObject? ==>
      RowActions(name, row) == Ok(ValueChangedActions(name, row.value.members))
  {
  }

  /** The actions the rows of one collection append, in row order, up to the first row
      that raises. */
  function RowsActions(name: string, rows: seq<Row>): Appended
    decreases |rows|
  {
    if rows == [] then Appended([], None)
    else
      var prev := RowsActions(name, rows[..|rows| - 1]);
      if prev.failure.Some? then prev
      else match RowActions(name, rows[|rows| - 1])
        case Ok(acts) => Appended(prev.actions + acts, None)
        case Err(e) => Appended(prev.actions, Some(e))
  }

  function RowsWeight(rows: seq<Row>): nat
    decreases |rows|
  {
    if rows == [] then 0 else RowsWeight(rows[..|rows| - 1]) + RowWeight(rows[|rows| - 1])
  }

  /** Rows that raise nothing append one action each, `values_changed` rows one per entry. */
  lemma {:induction false} RowsActionsCount(name: string, rows: seq<Row>)
    requires RowsActions(name, rows).failure.None?
    ensures |RowsActions(name, rows).actions| == RowsWeight(rows)
    decreases |rows|
  {
    if rows != [] {
      RowsActionsCount(name, rows[..|rows| - 1]);
    }
  }

  /** A row that raises stops the loop; the actions of the rows before it stay appended. */
  lemma {:induction false} RowsActionsFailure(name: string, rows: seq<Row>)
    requires RowsActions(name, rows).failure.Some?
    ensures exists k :: (0 <= k < |rows|
      && RowsActions(name, rows[..k]).failure.None?
      && RowActions(name, rows[k]).Err?
      && RowsActions(name, rows) == Appended(RowsActions(name, rows[..k]).actions, Some(RowActions(name, rows[k]).error)))
    decreases |rows|
  {
    var front := rows[..|rows| - 1];
    if RowsActions(name, front).failure.Some? {
      RowsActionsFailure(name, front);
      var k :| 0 <= k < |front| && RowsActions(name, front[..k]).failure.None? && RowActions(name, front[k]).Err?
        && RowsActions(name, front) == Appended(RowsActions(name, front[..k]).actions, Some(RowActions(name, front[k]).error));
      assert front[..k] == rows[..k];
      assert front[k] == rows[k];
    } else {
      assert rows[..|rows| - 1] == front;
    }
  }

  /** Every appended action names the collection its rows belong to. */
  lemma {:induction false} RowsActionsCollection(name: string, rows: seq<Row>)
    ensures forall i :: 0 <= i < |RowsActions(name, rows).actions| ==> RowsActions(name, rows).actions[i].collectionName == name
    decreases |rows|
  {
    if rows != [] {
      RowsActionsCollection(name, rows[..|rows| - 1]);
    }
  }

  /** The actions `__create_actions` appends: each collection's rows in dict order. */
  function DictActions(items: seq<(string, seq<Row>)>): Appended
    decreases |items|
  {
    if items == [] then Appended([], None)
    else
      var prev := DictActions(items[..|items| - 1]);
      if prev.failure.Some? then prev
      else
        var last := RowsActions(items[|items| - 1].0, items[|items| - 1].1);
        Appended(prev.actions + last.actions, last.failure)
  }

  /** The actions the constructor appends: a COLLECTION_CREATE per collection to create,
      then a DELETE_COLLECTION per collection to remove, each in input order. */
  function CollectionActions(create: seq<ArangoClients.Collection>, remove: seq<ArangoClients.Collection>): (r: seq<Action>)
    ensures |r| == |create| + |remove|
    ensures forall i :: 0 <= i < |create| ==> r[i] == Action(CollectionCreate, CollectionValue(create[i]), create[i].name)
    ensures forall i :: 0 <= i < |remove| ==> r[|create| + i] == Action(DeleteCollection, CollectionValue(remove[i]), remove[i].name)
  {
    seq(|create|, i requires 0 <= i < |create| => Action(CollectionCreate, CollectionValue(create[i]), create[i].name))
    + seq(|remove|, i requires 0 <= i < |remove| => Action(DeleteCollection, CollectionValue(remove[i]), remove[i].name))
  }

  // ---------------------------------------------------------------- grouping

  /** The `grouped_actions` dict handed to the template: tag value to action entries. */
  type Grouped = Dict<string, seq<ActionEntry>>

  function AddToGroup(g: Grouped, a: Action): (r: Grouped)
    requires g.Valid()
    ensures r.Valid()
  {
    var k := a.kind.Value();
    if k in g.values then g.Put(k, g.values[k] + [a.Dict()]) else g.Put(k, [a.Dict()])
  }

  function Group(actions: seq<Action>): (g: Grouped)
    ensures g.Valid()
    decreases |actions|
  {
    if actions == [] then Empty() else AddToGroup(Group(actions[..|actions| - 1]), actions[|actions| - 1])
  }

  /** Whether an action goes into the group of tag `k`. */
  function HasTag(k: string): Action -> bool {
    (a: Action) => a.kind.Value() == k
  }

  /** The entries of some actions, in order. */
  function Entries(actions: seq<Action>): (r: seq<ActionEntry>)
    ensures |r| == |actions|
    ensures forall i :: 0 <= i < |r| ==> r[i] == actions[i].Dict()
    decreases |actions|
  {
    if actions == [] then [] else Entries(actions[..|actions| - 1]) + [actions[|actions| - 1].Dict()]
  }

  /** A tag has a group exactly when some action carries it. */
  lemma {:induction false} GroupKeys(actions: seq<Action>, k: string)
    ensures k in Group(actions).values <==> exists i :: 0 <= i < |actions| && actions[i].kind.Value() == k
    decreases |actions|
  {
    if actions != [] {
      var front := actions[..|actions| - 1];
      GroupKeys(front, k);
      if exists i :: 0 <= i < |actions| && actions[i].kind.Value() == k {
        var i :| 0 <= i < |actions| && actions[i].kind.Value() == k;
        if i < |front| {
          assert front[i] == actions[i];
        }
      }
    }
  }

  /** The group of a tag holds the entries of exactly the actions carrying it, in the order
      of the action list. */
  lemma {:induction false} GroupLookup(actions: seq<Action>, k: string)
    ensures k in Group(actions).values ==> Group(actions).values[k] == Entries(Filter(actions, HasTag(k)))
    decreases |actions|
  {
    if actions != [] {
      var front, a := actions[..|actions| - 1], actions[|actions| - 1];
      assert actions == front + [a];
      GroupLookup(front, k);
      FilterSnoc(front, a, HasTag(k));
      if k !in Group(front).values {
        GroupKeys(front, k);
        FilterKeepsNone(front, HasTag(k));
      }
      GroupLookupStep(front, a, k);
    }
  }

  lemma GroupLookupStep(front: seq<Action>, a: Action, k: string)
    requires k in Group(front).values ==> Group(front).values[k] == Entries(Filter(front, HasTag(k)))
    requires k !in Group(front).values ==> Filter(front, HasTag(k)) == []
    ensures k in AddToGroup(Group(front), a).values ==>
      AddToGroup(Group(front), a).values[k] == Entries(Filter(front, HasTag(k)) + (if HasTag(k)(a) then [a] else []))
  {
    var tagged := Filter(front, HasTag(k));
    if HasTag(k)(a) {
      assert Entries(tagged + [a]) == Entries(tagged) + [a.Dict()];
    } else {
      assert tagged + [] == tagged;
    }
  }

  /** The total number of entries over the keys of a group dict. */
  function SumSizes(keys: seq<string>, values: map<string, seq<ActionEntry>>): nat
    requires forall i :: 0 <= i < |keys| ==> keys[i] in values
    decreases |keys|
  {
    if keys == [] then 0
    else SumSizes(keys[..|keys| - 1], values) + |values[keys[|keys| - 1]]|
  }

  lemma {:induction false} SumSizesOther(keys: seq<string>, values: map<string, seq<ActionEntry>>, k: string, v: seq<ActionEntry>)
    requires forall i :: 0 <= i < |keys| ==> keys[i] in values && keys[i] != k
    ensures SumSizes(keys, values[k := v]) == SumSizes(keys, values)
    decreases |keys|
  {
    if keys != [] {
      SumSizesOther(keys[..|keys| - 1], values, k, v);
    }
  }

  lemma {:induction false} SumSizesGrow(keys: seq<string>, values: map<string, seq<ActionEntry>>, j: nat, e: ActionEntry)
    requires forall i :: 0 <= i < |keys| ==> keys[i] in values
    requires forall i, i' :: 0 <= i < i' < |keys| ==> keys[i] != keys[i']
    requires j < |keys|
    ensures SumSizes(keys, values[keys[j] := values[keys[j]] + [e]]) == SumSizes(keys, values) + 1
    decreases |keys|
  {
    var front := keys[..|keys| - 1];
    if j == |keys| - 1 {
      SumSizesOther(front, values, keys[j], values[keys[j]] + [e]);
    } else {
      SumSizesGrow(front, values, j, e);
    }
  }

  /** The group sizes add up to the number of actions. */
  lemma {:induction false} GroupSizes(actions: seq<Action>)
    ensures SumSizes(Group(actions).keys, Group(actions).values) == |actions|
    decreases |actions|
  {
    if actions != [] {
      var front, a := actions[..|actions| - 1], actions[|actions| - 1];
      var g := Group(front);
      GroupSizes(front);
      var k := a.kind.Value();
      if k in g.values {
        var j :| 0 <= j < |g.keys| && g.keys[j] == k;
        SumSizesGrow(g.keys, g.values, j, a.Dict());
      } else {
        var r := g.Put(k, [a.Dict()]);
        assert r.keys == g.keys + [k];
        assert r.keys[..|r.keys| - 1] == g.keys;
        SumSizesOther(g.keys, g.values, k, [a.Dict()]);
      }
    }
  }

  // ---------------------------------------------------------------- the creator

  /** The class attribute `MigrationCreator.actions`: one list that every creator appends
      to and nothing clears. */
  class ActionList {
    var items: seq<Action>

    constructor ()
      ensures items == []
    {
      items := [];
    }

    method Append(a: Action)
      modifies this
      ensures items == old(items) + [a]
    {
      items := items + [a];
    }
  }

  class MigrationCreator {
    const actions: ActionList
    var template: string
    var diffDic: Dict<string, seq<Row>>

    ghost predicate Valid()
      reads this
    {
      diffDic.Valid()
    }

    constructor (shared: ActionList, createCollections: seq<ArangoClients.Collection>,
                 removeCollections: seq<ArangoClients.Collection>, template: string)
      modifies shared
      ensures Valid() && actions == shared && this.template == template && diffDic == Empty()
      ensures shared.items == old(shared.items) + CollectionActions(createCollections, removeCollections)
    {
      this.actions := shared;
      this.template := template;
      this.diffDic := Empty();
      new;
      ghost var base := shared.items;
      var expected := CollectionActions(createCollections, removeCollections);
      for i := 0 to |createCollections|
        modifies shared
        invariant shared.items == base + expected[..i]
      {
        var collection := createCollections[i];
        shared.Append(Action(CollectionCreate, CollectionValue(collection), collection.name));
        assert expected[..i + 1] == expected[..i] + [expected[i]];
      }
      for i := 0 to |removeCollections|
        modifies shared
        invariant shared.items == base + expected[..|createCollections| + i]
      {
        var collection := removeCollections[i];
        shared.Append(Action(DeleteCollection, CollectionValue(collection), collection.name));
        assert expected[..|createCollections| + i + 1] == expected[..|createCollections| + i] + [expected[|createCollections| + i]];
      }
      assert expected[..|createCollections| + |removeCollections|] == expected;
    }

    /** `add_diff`: stores the rows of a collection, replacing rows stored earlier under
        the same name in place. */
    method AddDiff(collectionName: string, diff: seq<Row>)
      requires Valid()
      modifies this
      ensures Valid() && diffDic == old(diffDic).Put(collectionName, diff)
      ensures template == old(template)
    {
      diffDic := diffDic.Put(collectionName, diff);
    }

    /** `create_migration`: appends the document actions of every stored diff, then hands
        the grouping of the whole shared list to the template (`render`). */
    method CreateMigration(render: Grouped -> string) returns (r: Result<string, CreatorError>)
      requires Valid()
      modifies actions
      ensures var appended := DictActions(diffDic.Items());
        && actions.items == old(actions.items) + appended.actions
        && r == if appended.failure.Some? then Err(appended.failure.value) else Ok(render(Group(actions.items)))
    {
      var failure := CreateActions();
      if failure.Some? {
        return Err(failure.value);
      }
      var grouped := GroupActions(actions.items);
      r := Ok(render(grouped));
    }

    /** `__create_actions`. */
    method CreateActions() returns (failure: Option<CreatorError>)
      requires Valid()
      modifies actions
      ensures actions.items == old(actions.items) + DictActions(diffDic.Items()).actions
      ensures failure == DictActions(diffDic.Items()).failure
    {
      failure := CreateActionsFrom(diffDic.Items());
    }

    /** The loop of `__create_actions` over the items of the diff dict. */
    method CreateActionsFrom(items: seq<(string, seq<Row>)>) returns (failure: Option<CreatorError>)
      modifies actions
      ensures actions.items == old(actions.items) + DictActions(items).actions
      ensures failure == DictActions(items).failure
    {
      ghost var base := actions.items;
      var i := 0;
      while i < |items|
        invariant 0 <= i <= |items|
        invariant DictActions(items[..i]).failure.None?
        invariant actions.items == base + DictActions(items[..i]).actions
      {
        DictActionsStep(items, i);
        ghost var done, next := DictActions(items[..i]).actions, RowsActions(items[i].0, items[i].1).actions;
        failure := CreateActionFromDiff(items[i].0, items[i].1);
        assert actions.items == base + (done + next) by {
          assert (base + done) + next == base + (done + next);
        }
        if failure.Some? {
          DictActionsStops(items, i + 1);
          return;
        }
        i := i + 1;
      }
      assert items[..i] == items;
      failure := None;
    }

    /** `__create_action_from_diff`. */
    method CreateActionFromDiff(collectionName: string, diffs: seq<Row>) returns (failure: Option<CreatorError>)
      modifies actions
      ensures actions.items == old(actions.items) + RowsActions(collectionName, diffs).actions
      ensures failure == RowsActions(collectionName, diffs).failure
    {
      ghost var base := actions.items;
      var i := 0;
      while i < |diffs|
        invariant 0 <= i <= |diffs|
        invariant RowsActions(collectionName, diffs[..i]).failure.None?
        invariant actions.items == base + RowsActions(collectionName, diffs[..i]).actions
      {
        RowsActionsStep(collectionName, diffs, i);
        ghost var done := RowsActions(collectionName, diffs[..i]).actions;
        failure := AppendRow(collectionName, diffs[i]);
        if failure.Some? {
          RowsActionsStops(collectionName, diffs, i + 1);
          return;
        }
        assert actions.items == base + (done + RowActions(collectionName, diffs[i]).value) by {
          assert actions.items == (base + done) + RowActions(collectionName, diffs[i]).value;
        }
        i := i + 1;
      }
      assert diffs[..i] == diffs;
      failure := None;
    }

    /** One step of the loop of `__create_action_from_diff`: the `match` on the row's action. */
    method AppendRow(collectionName: string, diff: Row) returns (failure: Option<CreatorError>)
      modifies actions
      ensures RowActions(collectionName, diff).Ok? ==>
        failure.None? && actions.items == old(actions.items) + RowActions(collectionName, diff).value
      ensures RowActions(collectionName, diff).Err? ==>
        failure == Some(RowActions(collectionName, diff).error) && actions.items == old(actions.items)
    {
      if diff.action == ItemAdded {
        var created := DocumentCreateAction(collectionName, diff);
        if created.Err? {
          return Some(created.error);
        }
        actions.Append(created.value);
      } else if diff.action == ItemRemoved {
        actions.Append(Action(DocumentDelete, DocumentValue(diff.value), collectionName));
      } else if diff.action == TypeChanged {
        var updated := UpdateAction(collectionName, diff);
        if updated.Err? {
          return Some(updated.error);
        }
        actions.Append(updated.value);
      } else if diff.action == ValueChanged {
        if !diff.value.JObject? {
          return Some(NotADict);
        }
        var members := diff.value.members;
        ghost var before := actions.items;
        for j := 0 to |members|
          invariant actions.items == before + ValueChangedActions(collectionName, members[..j])
        {
          assert members[..j + 1][..j] == members[..j];
          actions.Append(Action(DocumentCreate, DocumentValue(members[j].1), collectionName));
        }
        assert members[..|members|] == members;
      } else {
        return Some(UnsupportedAction(diff.action));
      }
      failure := None;
    }
  }

  /** The grouping loop of `__render_template`. */
  method GroupActions(actions: seq<Action>) returns (grouped: Grouped)
    ensures grouped == Group(actions)
  {
    grouped := Empty();
    for i := 0 to |actions|
      invariant grouped == Group(actions[..i])
    {
      var action := actions[i];
      assert actions[..i + 1][..i] == actions[..i];
      if action.kind.Value() in grouped.values {
        grouped := grouped.Put(action.kind.Value(), grouped.values[action.kind.Value()] + [action.Dict()]);
      } else {
        grouped := grouped.Put(action.kind.Value(), [action.Dict()]);
      }
    }
    assert actions[..|actions|] == actions;
  }

  lemma RowsActionsStep(name: string, rows: seq<Row>, i: nat)
    requires i < |rows| && RowsActions(name, rows[..i]).failure.None?
    ensures RowActions(name, rows[i]).Ok? ==>
      RowsActions(name, rows[..i + 1]) == Appended(RowsActions(name, rows[..i]).actions + RowActions(name, rows[i]).value, None)
    ensures RowActions(name, rows[i]).Err? ==>
      RowsActions(name, rows[..i + 1]) == Appended(RowsActions(name, rows[..i]).actions, Some(RowActions(name, rows[i]).error))
  {
    assert rows[..i + 1][..i] == rows[..i];
  }

  lemma {:induction false} RowsActionsStops(name: string, rows: seq<Row>, k: nat)
    requires k <= |rows|
    requires RowsActions(name, rows[..k]).failure.Some?
    ensures RowsActions(name, rows) == RowsActions(name, rows[..k])
    decreases |rows| - k
  {
    if k < |rows| {
      assert rows[..|rows| - 1][..k] == rows[..k];
      RowsActionsStops(name, rows[..|rows| - 1], k);
    } else {
      assert rows[..k] == rows;
    }
  }

  lemma DictActionsStep(items: seq<(string, seq<Row>)>, i: nat)
    requires i < |items| && DictActions(items[..i]).failure.None?
    ensures DictActions(items[..i + 1]) == Appended(DictActions(items[..i]).actions + RowsActions(items[i].0, items[i].1).actions,
                                                     RowsActions(items[i].0, items[i].1).failure)
  {
    assert items[..i + 1][..i] == items[..i];
  }

  lemma {:induction false} DictActionsStops(items: seq<(string, seq<Row>)>, k: nat)
    requires k <= |items|
    requires DictActions(items[..k]).failure.Some?
    ensures DictActions(items) == DictActions(items[..k])
    decreases |items| - k
  {
    if k < |items| {
      assert items[..|items| - 1][..k] == items[..k];
      DictActionsStops(items[..|items| - 1], k);
    } else {
      assert items[..k] == items;
    }
  }
}

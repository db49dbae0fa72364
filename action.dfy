/** The five migration action kinds and the action record. */
module Actions {
  import opened Json
  import ArangoClients

  datatype ActionType = CollectionCreate | DeleteCollection | DocumentCreate | DocumentDelete | DocumentUpdate {

    /** The enum member's value: the tag that groups actions for rendering. */
    function Value(): string {
      match this
      case CollectionCreate => "create_collection"
      case DeleteCollection => "delete_collection"
      case DocumentCreate => "create_document"
      case DocumentDelete => "delete_document"
      case DocumentUpdate => "update_document"
    }

    /** The enum member's name, as `str(ActionType.X)` shows it after "ActionType.". */
    function Name(): string {
      match this
      case CollectionCreate => "COLLECTION_CREATE"
      case DeleteCollection => "DELETE_COLLECTION"
      case DocumentCreate => "DOCUMENT_CREATE"
      case DocumentDelete => "DOCUMENT_DELETE"
      case DocumentUpdate => "DOCUMENT_UPDATE"
    }
  }

  /** The `data` dict of an action, one variant per shape the migration creator builds. */
  datatype ActionData =
    | CollectionValue(collection: ArangoClients.Collection)   // {"value": collection}
    | DocumentValue(value: Json)                               // {"value": value}
    | FieldUpdate(id: string, field: string, value: Json)      // {"id": id, "value": {field: value}}

  /** What `Action.__dict__()` returns: the data and the collection name, not the type. */
  datatype ActionEntry = ActionEntry(data: ActionData, collectionName: string)

  datatype Action = Action(kind: ActionType, data: ActionData, collectionName: string) {

    function Dict(): ActionEntry {
      ActionEntry(data, collectionName)
    }

    /** `__str__` and `__repr__`, which format the same text: `str(self.type)`, a dash,
        and `show`, Python's text of the data dict. */
    function Text(show: ActionData -> string): (s: string)
      ensures |s| == |TypePrefix| + |kind.Name()| + |Separator| + |show(data)|
      ensures s[..|TypePrefix|] == TypePrefix
      ensures s[|TypePrefix|..|TypePrefix| + |kind.Name()|] == kind.Name()
      ensures s[|TypePrefix| + |kind.Name()|..] == Separator + show(data)
    {
      var s := TypePrefix + kind.Name() + (Separator + show(data));
      assert s == TypePrefix + (kind.Name() + (Separator + show(data)));
      s
    }
  }

  /** What `str()` of an enum member starts with. */
  const TypePrefix: string := "ActionType."

  const Separator: string := " - "

  /** The tag values are pairwise distinct, so each tag names exactly one kind. */
  lemma ValueInjective(a: ActionType, b: ActionType)
    ensures a.Value() == b.Value() ==> a == b
  {
  }

  /** `__dict__()` forgets the type: two actions that differ only in kind give the same
      entry, and the entry still determines data and collection name. */
  lemma DictForgetsKind(a: Action, b: Action)
    ensures a.Dict() == b.Dict() <==> a.data == b.data && a.collectionName == b.collectionName
  {
  }

  /** The tenth letter of a kind's name tells the kinds apart. */
  lemma NameMarkInjective(a: ActionType, b: ActionType)
    ensures |a.Name()| >= 10 && |b.Name()| >= 10
    ensures a.Name()[9] == b.Name()[9] ==> a == b
  {
  }

  /** The printed text of an action determines its kind, whatever the data looks like. */
  lemma TextDeterminesKind(a: Action, b: Action, show: ActionData -> string)
    requires a.Text(show) == b.Text(show)
    ensures a.kind == b.kind
  {
    NameMarkInjective(a.kind, b.kind);
    var s := a.Text(show);
    assert s[|TypePrefix| + 9] == s[|TypePrefix|..|TypePrefix| + |a.kind.Name()|][9] == a.kind.Name()[9];
    assert s[|TypePrefix| + 9] == s[|TypePrefix|..|TypePrefix| + |b.kind.Name()|][9] == b.kind.Name()[9];
  }
}

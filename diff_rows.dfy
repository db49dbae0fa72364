/** Flat rows of a structural diff, as the migration creators receive them. */
module DiffRows {
  import opened Json

  /** One flat diff row: the diff action tag, the path (document id, then field name) and
      the value. */
  datatype Row = Row(action: string, path: seq<string>, value: Json)

  const ItemAdded: string := "dictionary_item_added"
  const ItemRemoved: string := "dictionary_item_removed"
  const TypeChanged: string := "type_changes"
  const ValueChanged: string := "values_changed"
}

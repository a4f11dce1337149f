/**
 * The landing page's file tree: which items are expanded and which one is
 * selected, the click rules of its item, node, folder and file rows, and
 * the rows it shows with their indentation, both as written, where the
 * folder icon is the file's own `Folder` component, and with that icon
 * fixed.
 */
module LandingFileTree {
  import opened Wrappers
  import Lists

  /** An element of the tree. An absent `children` list behaves exactly
      like an empty one here, so both are `[]`. */
  datatype TreeElement = TreeElement(id: string, name: string, isSelectable: bool, children: seq<TreeElement>)

  /** An item shows a chevron, a folder icon and children only with at
      least one child. */
  predicate HasChildren(e: TreeElement) {
    |e.children| > 0
  }

  /** `toggleExpandedItem`: every copy of a present id goes, an absent id
      is appended. */
  function Toggled(items: seq<string>, id: string): (r: seq<string>)
    ensures id in r <==> id !in items
    ensures forall y :: y != id ==> (y in r <==> y in items)
  {
    if id in items then Lists.RemoveAll(items, id) else items + [id]
  }

  /** Toggling an absent id twice gives back the same list. */
  lemma ToggleTwiceRestores(items: seq<string>, id: string)
    requires id !in items
    ensures Toggled(Toggled(items, id), id) == items
  {
    Lists.RemoveAllConcat(items, [id], id);
    Lists.RemoveAllAbsent(items, id);
    assert Lists.RemoveAll([id], id) == [];
  }

  /** Toggling keeps a list free of duplicates. */
  lemma ToggleKeepsNoDuplicates(items: seq<string>, id: string)
    requires Lists.NoDuplicates(items)
    ensures Lists.NoDuplicates(Toggled(items, id))
  {
    if id in items {
      Lists.RemoveAllNoDuplicates(items, id);
    } else {
      Lists.AppendNoDuplicates(items, id);
    }
  }

  /** One shown row: its id, its depth, its left padding in pixels, whether
      it is drawn as a folder, and whether its chevron points down. */
  datatype Row = Row(id: string, level: nat, padding: nat, folder: bool, open: bool)

  /** The rows of an item at `level`: the item itself, then, when it has
      children and is expanded, its children's rows one level deeper. */
  function ItemRows(e: TreeElement, level: nat, expanded: seq<string>): (r: seq<Row>)
    ensures |r| >= 1 && r[0].id == e.id && r[0].level == level
    ensures r[0].folder == HasChildren(e) && r[0].open == (HasChildren(e) && e.id in expanded)
    ensures |r| > 1 <==> HasChildren(e) && e.id in expanded
    ensures forall k :: 0 <= k < |r| ==> r[k].padding == (r[k].level + 1) * 12 && r[k].level >= level
    ensures forall k :: 1 <= k < |r| ==> r[k].level > level
    decreases e
  {
    var open := HasChildren(e) && e.id in expanded;
    var self := Row(e.id, level, (level + 1) * 12, HasChildren(e), open);
    if open then [self] + ChildRows(e.children, level + 1, expanded)
    else [self]
  }

  /** The rows of a list of siblings, in order. */
  function ChildRows(cs: seq<TreeElement>, level: nat, expanded: seq<string>): (r: seq<Row>)
    ensures |r| >= |cs|
    ensures forall k :: 0 <= k < |r| ==> r[k].padding == (r[k].level + 1) * 12 && r[k].level >= level
    decreases cs
  {
    if cs == [] then []
    else ItemRows(cs[0], level, expanded) + ChildRows(cs[1..], level, expanded)
  }

  /** A collapsed item, or one without children, shows exactly one row. */
  lemma CollapsedShowsOneRow(e: TreeElement, level: nat, expanded: seq<string>)
    requires !HasChildren(e) || e.id !in expanded
    ensures ItemRows(e, level, expanded) == [Row(e.id, level, (level + 1) * 12, HasChildren(e), false)]
  {
  }

  /** The folder icon as written. The file imports no icon named `Folder`,
      so the `Folder` drawn beside an item with children, in a tree node
      and in a folder is this file's own `Folder` component, whose button
      draws such a `Folder` again. With `fuel` nested drawings allowed, the
      result is the depth of the finished drawing, or `None` when the
      allowance runs out first. */
  function FolderIconAsWritten(fuel: nat): Option<nat> {
    if fuel == 0 then None
    else match FolderIconAsWritten(fuel - 1)
      case None => None
      case Some(depth) => Some(depth + 1)
  }

  /** However deep the allowance, the folder icon as written never finishes. */
  lemma {:induction false} FolderIconNeverFinishes(fuel: nat)
    ensures FolderIconAsWritten(fuel) == None
  {
    if fuel > 0 {
      FolderIconNeverFinishes(fuel - 1);
    }
  }

  /** An item's rows as written. An item with children draws the folder
      icon above, so it has rows only if that icon finishes: it never does.
      A childless item draws its file icon and the single row of `ItemRows`. */
  function ItemRowsAsWritten(e: TreeElement, level: nat, expanded: seq<string>, fuel: nat): (r: Option<seq<Row>>)
    ensures r.Some? <==> !HasChildren(e)
    ensures r.Some? ==> r.value == ItemRows(e, level, expanded) && |r.value| == 1
  {
    FolderIconNeverFinishes(fuel);
    var icon := if HasChildren(e) then FolderIconAsWritten(fuel) else Some(0);
    if icon.None? then None else Some([Row(e.id, level, (level + 1) * 12, false, false)])
  }

  /** A list of siblings as written: one item that cannot be drawn leaves
      the whole list undrawn. */
  function ChildRowsAsWritten(cs: seq<TreeElement>, level: nat, expanded: seq<string>, fuel: nat): (r: Option<seq<Row>>)
    ensures r.Some? <==> forall k :: 0 <= k < |cs| ==> !HasChildren(cs[k])
    ensures r.Some? ==> r.value == ChildRows(cs, level, expanded)
    decreases cs
  {
    if cs == [] then Some([])
    else
      match (ItemRowsAsWritten(cs[0], level, expanded, fuel), ChildRowsAsWritten(cs[1..], level, expanded, fuel))
      case (Some(first), Some(rest)) => Some(first + rest)
      case _ => None
  }

  class Tree {
    var selectedItemId: Option<string>
    var expandedItems: seq<string>

    constructor(initialSelectedId: Option<string>, initialExpandedItems: seq<string>)
      ensures selectedItemId == initialSelectedId && expandedItems == initialExpandedItems
    {
      selectedItemId := initialSelectedId;
      expandedItems := initialExpandedItems;
    }

    /** The shown rows of the top-level elements. */
    function Rows(elements: seq<TreeElement>): seq<Row>
      reads this
    {
      ChildRows(elements, 0, expandedItems)
    }

    method ToggleExpandedItem(id: string)
      modifies this
      ensures expandedItems == Toggled(old(expandedItems), id)
      ensures selectedItemId == old(selectedItemId)
    {
      if id in expandedItems {
        expandedItems := Lists.RemoveAll(expandedItems, id);
      } else {
        expandedItems := expandedItems + [id];
      }
    }

    /** A `TreeItem` click: select when selectable, toggle when it has
        children. As written an item with children is never drawn
        (`ItemRowsAsWritten`), so only a childless item can be clicked. */
    method ClickItem(e: TreeElement)
      modifies this
      ensures selectedItemId == if e.isSelectable then Some(e.id) else old(selectedItemId)
      ensures expandedItems == if HasChildren(e) then Toggled(old(expandedItems), e.id) else old(expandedItems)
    {
      if e.isSelectable {
        selectedItemId := Some(e.id);
      }
      if HasChildren(e) {
        ToggleExpandedItem(e.id);
      }
    }

    /** A `TreeNode` or `Folder` click: select and toggle. As written
        neither component finishes drawing (`FolderIconNeverFinishes`), so
        this is the click of the component with the folder icon fixed. */
    method ClickFolder(value: string)
      modifies this
      ensures selectedItemId == Some(value)
      ensures expandedItems == Toggled(old(expandedItems), value)
    {
      selectedItemId := Some(value);
      ToggleExpandedItem(value);
    }

    /** A `File` click only selects. */
    method ClickFile(value: string)
      modifies this
      ensures selectedItemId == Some(value)
      ensures expandedItems == old(expandedItems)
    {
      selectedItemId := Some(value);
    }
  }
}

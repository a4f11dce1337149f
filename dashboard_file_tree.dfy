/**
 * The folder panel of the dashboard: a tree of folders and documents, a
 * form that appends a new top-level folder, and the rendering that
 * decides, element by element, between a folder and a file.
 *
 * An element with a `children` list, even an empty one, is a `Folder`;
 * one without is a `File`. The clock reading used for a new folder's id
 * is a parameter.
 */
module FolderTree {
  import Text

  datatype Element =
    | Folder(id: string, name: string, children: seq<Element>)
    | File(id: string, name: string)

  const InitialStructure: seq<Element> := [
    Folder("docs", "Documentation", [
      Folder("getting-started", "Getting Started", [
        File("installation", "Installation.md"),
        File("quick-start", "Quick Start.md")]),
      Folder("guides", "Guides", [
        File("authentication", "Authentication.md"),
        File("data-fetching", "Data Fetching.md"),
        File("error-handling", "Error Handling.md")]),
      Folder("api-reference", "API Reference", [
        File("endpoints", "Endpoints.md"),
        File("parameters", "Parameters.md"),
        File("responses", "Responses.md")])]),
    Folder("examples", "Examples", [
      File("basic-usage", "Basic Usage.md"),
      File("advanced-usage", "Advanced Usage.md")])
  ]

  /** What is drawn for an element: a folder labelled with its name and
      holding its rendered children, or a file showing its name. */
  datatype View =
    | FolderView(value: string, element: string, items: seq<View>)
    | FileView(value: string, text: string)

  /** Reads a rendered item back as the element it shows. */
  function Unrender(v: View): Element
    decreases v
  {
    match v
    case FolderView(value, element, items) => Folder(value, element, UnrenderAll(items))
    case FileView(value, text) => File(value, text)
  }

  function UnrenderAll(vs: seq<View>): seq<Element>
    decreases vs
  {
    if vs == [] then [] else [Unrender(vs[0])] + UnrenderAll(vs[1..])
  }

  /** `RenderTreeItem`: a folder exactly when the element has a children
      list, with its children rendered in order; nothing is lost, so reading
      the view back gives the element. */
  function RenderItem(e: Element): (v: View)
    ensures v.FolderView? <==> e.Folder?
    ensures v.FolderView? ==> |v.items| == |e.children|
    ensures v.value == e.id
    ensures Unrender(v) == e
    decreases e
  {
    match e
    case Folder(id, name, children) => FolderView(id, name, RenderItems(children))
    case File(id, name) => FileView(id, name)
  }

  function RenderItems(es: seq<Element>): (vs: seq<View>)
    ensures |vs| == |es|
    ensures forall k :: 0 <= k < |es| ==> (vs[k].FolderView? <==> es[k].Folder?)
    ensures UnrenderAll(vs) == es
    decreases es
  {
    if es == [] then []
    else
      var vs := [RenderItem(es[0])] + RenderItems(es[1..]);
      assert vs[1..] == RenderItems(es[1..]);
      vs
  }

  /** An empty folder is still drawn as a folder. */
  lemma EmptyFolderIsFolder(id: string, name: string)
    ensures RenderItem(Folder(id, name, [])) == FolderView(id, name, [])
  {
  }

  /** The id given to a folder created at clock reading `now`. */
  function NewFolderId(now: nat): (id: string)
    ensures |id| > |"folder-"| && id[..7] == "folder-"
  {
    "folder-" + Text.NatToString(now)
  }

  class FolderPanel {
    var fileStructure: seq<Element>
    var newFolderName: string
    var isAddingFolder: bool
    /** Typed into the search box; nothing filters on it. */
    var searchQuery: string

    /** Every top-level element is a folder: the initial ones are, and only
        folders are ever added. */
    predicate Valid()
      reads this
    {
      forall i :: 0 <= i < |fileStructure| ==> fileStructure[i].Folder?
    }

    constructor()
      ensures Valid()
      ensures fileStructure == InitialStructure
      ensures newFolderName == "" && !isAddingFolder && searchQuery == ""
    {
      fileStructure := InitialStructure;
      newFolderName := "";
      isAddingFolder := false;
      searchQuery := "";
    }

    /** The plus button opens the name form. */
    method StartAdding()
      requires Valid()
      modifies this
      ensures Valid()
      ensures isAddingFolder
      ensures fileStructure == old(fileStructure) && newFolderName == old(newFolderName) && searchQuery == old(searchQuery)
    {
      isAddingFolder := true;
    }

    method ChangeNewFolderName(value: string)
      requires Valid()
      modifies this
      ensures Valid()
      ensures newFolderName == value
      ensures fileStructure == old(fileStructure) && isAddingFolder == old(isAddingFolder) && searchQuery == old(searchQuery)
    {
      newFolderName := value;
    }

    method ChangeSearchQuery(value: string)
      requires Valid()
      modifies this
      ensures Valid()
      ensures searchQuery == value
      ensures fileStructure == old(fileStructure) && isAddingFolder == old(isAddingFolder) && newFolderName == old(newFolderName)
    {
      searchQuery := value;
    }

    /** The check button or Enter: a name that is not blank becomes a new,
        empty top-level folder at the end, named exactly as typed; the form
        then clears and closes. A blank name changes nothing. */
    method AddFolder(now: nat)
      requires Valid()
      modifies this
      ensures Valid()
      ensures Text.IsBlank(old(newFolderName)) ==>
                fileStructure == old(fileStructure) && newFolderName == old(newFolderName) && isAddingFolder == old(isAddingFolder)
      ensures !Text.IsBlank(old(newFolderName)) ==>
                && fileStructure == old(fileStructure) + [Folder(NewFolderId(now), old(newFolderName), [])]
                && newFolderName == "" && !isAddingFolder
      ensures searchQuery == old(searchQuery)
    {
      Text.TrimEmptyIffBlank(newFolderName);
      if Text.Trim(newFolderName) != "" {
        var folder := Folder(NewFolderId(now), newFolderName, []);
        fileStructure := fileStructure + [folder];
        newFolderName := "";
        isAddingFolder := false;
      }
    }

    /** Leaving the form by the cancel button or Escape. */
    method CancelAdding()
      requires Valid()
      modifies this
      ensures Valid()
      ensures !isAddingFolder
      ensures fileStructure == old(fileStructure) && newFolderName == old(newFolderName) && searchQuery == old(searchQuery)
    {
      isAddingFolder := false;
    }

    /** Enter adds, Escape cancels, other keys do nothing. */
    method KeyDown(key: string, now: nat)
      requires Valid()
      modifies this
      ensures Valid()
      ensures key == "Enter" && !Text.IsBlank(old(newFolderName)) ==>
                && fileStructure == old(fileStructure) + [Folder(NewFolderId(now), old(newFolderName), [])]
                && newFolderName == "" && !isAddingFolder
      ensures key == "Enter" && Text.IsBlank(old(newFolderName)) ==>
                fileStructure == old(fileStructure) && newFolderName == old(newFolderName) && isAddingFolder == old(isAddingFolder)
      ensures key == "Escape" ==>
                !isAddingFolder && fileStructure == old(fileStructure) && newFolderName == old(newFolderName)
      ensures key != "Enter" && key != "Escape" ==>
                fileStructure == old(fileStructure) && isAddingFolder == old(isAddingFolder) && newFolderName == old(newFolderName)
      ensures searchQuery == old(searchQuery)
    {
      if key == "Enter" {
        AddFolder(now);
      }
      if key == "Escape" {
        CancelAdding();
      }
    }

    /** What the panel draws: each top-level element, in order. */
    function Rendered(): (vs: seq<View>)
      requires Valid()
      reads this
      ensures |vs| == |fileStructure|
      ensures forall k :: 0 <= k < |vs| ==> vs[k].FolderView?
    {
      RenderItems(fileStructure)
    }
  }
}

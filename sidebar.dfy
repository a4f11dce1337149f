/**
 * The dashboard sidebar: in-place editing of the team name shown beside
 * the logo, and which navigation entry is highlighted.
 *
 * The input's blur schedules a cancel 100 ms later; pending cancels are
 * fired by an explicit later step. `isSaving` is set and cleared within
 * the same save handler, so every other handler observes it as false.
 *
 * The name, the input and the save and cancel buttons sit inside the
 * logo's link to "/", and no handler stops the click, so as written a
 * click on any of them also leaves the dashboard.
 */
module Sidebar {
  import opened Wrappers
  import Text

  const InitialTeamName := "TEAM"
  /** The input's `maxLength`. */
  const MaxLength: nat := 20
  /** Where the logo's link leads. */
  const LogoHref := "/"

  /** A team name as the sidebar keeps it: non-empty, no longer than the
      input allows, and without surrounding white space. */
  predicate IsCleanName(name: string) {
    name != [] && |name| <= MaxLength &&
    !Text.IsWhitespace(name[0]) && !Text.IsWhitespace(name[|name| - 1])
  }

  datatype NavItem = NavItem(title: string, href: string, active: bool)

  /** The navigation entries; the upper three are highlighted when the path
      is exactly their link, the lower two never. */
  function NavItems(pathname: string): (items: seq<NavItem>)
    ensures |items| == 5
    ensures forall i :: 0 <= i < 5 ==> (items[i].active <==> i < 3 && pathname == items[i].href)
  {
    [NavItem("Overview", "/", pathname == "/"),
     NavItem("Editor", "/editor", pathname == "/editor"),
     NavItem("Settings", "/settings", pathname == "/settings"),
     NavItem("Documentation", "#", false),
     NavItem("Support", "/support", false)]
  }

  /** At most one entry is highlighted. */
  lemma AtMostOneActive(pathname: string, i: nat, j: nat)
    requires i < j < 5
    ensures !(NavItems(pathname)[i].active && NavItems(pathname)[j].active)
  {
    var items := NavItems(pathname);
    assert items[0].href == "/" && items[1].href == "/editor" && items[2].href == "/settings";
  }

  class TeamNameEditor {
    var teamName: string
    var isEditing: bool
    var editValue: string
    var isSaving: bool
    /** Cancels scheduled by blurs and not yet run. */
    var pendingCancels: nat
    /** The page a click through the logo's link has opened; `None` while
        the dashboard is still shown. */
    var navigatedTo: Option<string>

    predicate Valid()
      reads this
    {
      IsCleanName(teamName) && |editValue| <= MaxLength && !isSaving
    }

    constructor()
      ensures Valid()
      ensures teamName == InitialTeamName && !isEditing && editValue == InitialTeamName
      ensures !isSaving && pendingCancels == 0 && navigatedTo == None
    {
      teamName := InitialTeamName;
      isEditing := false;
      editValue := InitialTeamName;
      isSaving := false;
      pendingCancels := 0;
      navigatedTo := None;
    }

    /** A click on the name starts editing a copy of it. This is the handler
        with the click kept from the link: the page stays. */
    method EditStart()
      requires Valid()
      modifies this
      ensures Valid()
      ensures isEditing && editValue == teamName
      ensures teamName == old(teamName) && pendingCancels == old(pendingCancels) && navigatedTo == old(navigatedTo)
    {
      isEditing := true;
      editValue := teamName;
    }

    /** Typing; the input holds at most `MaxLength` characters. */
    method ChangeEditValue(value: string)
      requires Valid() && |value| <= MaxLength
      modifies this
      ensures Valid()
      ensures editValue == value
      ensures teamName == old(teamName) && isEditing == old(isEditing) && pendingCancels == old(pendingCancels)
      ensures navigatedTo == old(navigatedTo)
    {
      editValue := value;
    }

    /** Save (the check-mark button with its click kept from the link, or
        Enter): a non-blank value becomes the name, trimmed; a blank one is
        dropped. Editing ends either way, and the page stays. */
    method EditSave()
      requires Valid()
      modifies this
      ensures Valid()
      ensures teamName == SavedName(old(teamName), old(editValue))
      ensures !isEditing && !isSaving && editValue == old(editValue) && pendingCancels == old(pendingCancels)
      ensures navigatedTo == old(navigatedTo)
    {
      var name := SavedName(teamName, editValue);
      assert IsCleanName(name);
      isSaving := true;
      teamName, isEditing, isSaving := name, false, false;
    }

    /** Cancel (the X button with its click kept from the link, Escape, or
        a fired blur timer): editing ends unless a save is under way, and
        the name and the page stay. */
    method EditCancel()
      requires Valid()
      modifies this
      ensures Valid()
      ensures !isEditing
      ensures teamName == old(teamName) && editValue == old(editValue) && pendingCancels == old(pendingCancels)
      ensures navigatedTo == old(navigatedTo)
    {
      if !isSaving {
        isEditing := false;
      }
    }

    /** Enter saves, Escape cancels, other keys do nothing. */
    method KeyDown(key: string)
      requires Valid()
      modifies this
      ensures Valid()
      ensures key == "Enter" ==>
                !isEditing && teamName == SavedName(old(teamName), old(editValue))
      ensures key == "Escape" ==> !isEditing && teamName == old(teamName)
      ensures key != "Enter" && key != "Escape" ==> isEditing == old(isEditing) && teamName == old(teamName)
      ensures editValue == old(editValue) && pendingCancels == old(pendingCancels) && navigatedTo == old(navigatedTo)
    {
      if key == "Enter" {
        EditSave();
      } else if key == "Escape" {
        EditCancel();
      }
    }

    /** Leaving the input schedules a cancel. */
    method Blur()
      requires Valid()
      modifies this
      ensures Valid()
      ensures pendingCancels == old(pendingCancels) + 1
      ensures teamName == old(teamName) && isEditing == old(isEditing) && editValue == old(editValue)
      ensures navigatedTo == old(navigatedTo)
    {
      pendingCancels := pendingCancels + 1;
    }

    /** A scheduled cancel runs. */
    method FireBlurTimer()
      requires Valid() && pendingCancels > 0
      modifies this
      ensures Valid()
      ensures !isEditing && teamName == old(teamName) && editValue == old(editValue)
      ensures pendingCancels == old(pendingCancels) - 1 && navigatedTo == old(navigatedTo)
    {
      pendingCancels := pendingCancels - 1;
      EditCancel();
    }

    /** A click on the name as written: editing starts, and the click goes
        on to the logo's link, which leaves the dashboard. */
    method ClickNameAsWritten()
      requires Valid()
      modifies this
      ensures Valid()
      ensures isEditing && editValue == teamName
      ensures teamName == old(teamName) && pendingCancels == old(pendingCancels)
      ensures navigatedTo == Some(LogoHref)
    {
      EditStart();
      navigatedTo := Some(LogoHref);
    }

    /** A click on the check mark as written: the save happens, and the
        click goes on to the logo's link. */
    method ClickSaveAsWritten()
      requires Valid()
      modifies this
      ensures Valid()
      ensures teamName == SavedName(old(teamName), old(editValue))
      ensures !isEditing && !isSaving && editValue == old(editValue) && pendingCancels == old(pendingCancels)
      ensures navigatedTo == Some(LogoHref)
    {
      EditSave();
      navigatedTo := Some(LogoHref);
    }

    /** A click on the X as written: the cancel happens, and the click goes
        on to the logo's link. */
    method ClickCancelAsWritten()
      requires Valid()
      modifies this
      ensures Valid()
      ensures !isEditing
      ensures teamName == old(teamName) && editValue == old(editValue) && pendingCancels == old(pendingCancels)
      ensures navigatedTo == Some(LogoHref)
    {
      EditCancel();
      navigatedTo := Some(LogoHref);
    }
  }

  /** Trimming what the input holds gives a clean name unless it is blank. */
  lemma TrimmedIsClean(s: string)
    requires |s| <= MaxLength
    ensures Text.Trim(s) == [] <==> Text.IsBlank(s)
    ensures !Text.IsBlank(s) ==> IsCleanName(Text.Trim(s))
  {
    Text.TrimProperties(s);
    assert |Text.TrimStart(s)| <= |s|;
  }

  /** The name after a save: the trimmed value, or the old name when the
      value is blank. */
  function SavedName(name: string, value: string): (r: string)
    requires IsCleanName(name) && |value| <= MaxLength
    ensures IsCleanName(r)
    ensures Text.IsBlank(value) ==> r == name
    ensures !Text.IsBlank(value) ==> r == Text.Trim(value)
  {
    TrimmedIsClean(value);
    var trimmed := Text.Trim(value);
    if trimmed != "" then trimmed else name
  }

  /** Starting to edit and saving straight away keeps the name. */
  lemma SaveUnchangedKeepsName(name: string)
    requires IsCleanName(name)
    ensures !Text.IsBlank(name) && Text.Trim(name) == name
  {
    Text.TrimTrimmed(name);
    Text.TrimProperties(name);
  }
}

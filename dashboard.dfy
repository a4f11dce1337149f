/**
 * The dashboard page: the editable docs-URL badge ("https://<name>/docs")
 * with its mock availability check, and the time-of-day greeting.
 */
module Dashboard {
  import opened Wrappers

  const InitialBadgeName := "team"
  const TakenName := "taken"
  /** Pixels per character, and the narrowest the input may be. */
  const CharWidth: nat := 8
  const MinWidth: nat := 40

  /** The mock availability check: "taken" is never available, any other
      name is once it is longer than three characters. */
  function CheckAvailability(name: string): (r: bool)
    ensures r ==> |name| >= 4 && name != TakenName
    ensures name != TakenName && |name| > 3 ==> r
  {
    if name == TakenName then false else |name| > 3
  }

  /** Short names are never available, whatever they are. */
  lemma ShortNamesUnavailable(name: string)
    requires |name| <= 3
    ensures !CheckAvailability(name)
  {
  }

  /** The width the input's `style` prop asks for, in pixels, before any
      measurement replaces it. */
  function InputWidth(length: nat): (w: nat)
    ensures w >= MinWidth && w >= length * CharWidth
    ensures w == MinWidth || w == length * CharWidth
  {
    if length * CharWidth > MinWidth then length * CharWidth else MinWidth
  }

  /** Names of five or fewer characters all get the minimum width. */
  lemma ShortNamesGetMinWidth(length: nat)
    ensures InputWidth(length) == MinWidth <==> length <= 5
  {
  }

  /** What `adjustInputWidth` measures: the input's value, or "team" when
      the value is empty. */
  const MeasureFallback := "team"
  /** Pixels added to the measured text width. */
  const MeasurePadding: nat := 10

  function MeasuredText(value: string): (t: string)
    ensures t != []
    ensures value != [] ==> t == value
  {
    if value == [] then MeasureFallback else value
  }

  /** The width `adjustInputWidth` writes into the input's style when
      editing starts and after each change, replacing `InputWidth`;
      `textWidth` is the rendered width of `MeasuredText` in pixels. */
  function AdjustedWidth(textWidth: nat): (w: nat)
    ensures w >= MinWidth && w >= textWidth + MeasurePadding
    ensures w == MinWidth || w == textWidth + MeasurePadding
  {
    if textWidth + MeasurePadding > MinWidth then textWidth + MeasurePadding else MinWidth
  }

  /** The greeting for an hour of the local clock. */
  function Greeting(hour: nat): (g: string)
    requires hour < 24
    ensures g == "Good evening," <==> hour >= 12
    ensures g == "Good morning," <==> hour < 12
  {
    if hour >= 12 then "Good evening," else "Good morning,"
  }

  datatype Icon = CheckIcon | CircleIcon

  class UrlBadge {
    var isEditing: bool
    var teamName: string
    /** `null` until the first keystroke of an edit. */
    var isAvailable: Option<bool>

    /** Availability is only known while editing. */
    predicate Valid()
      reads this
    {
      !isEditing ==> isAvailable == None
    }

    /** The icon in front of the URL, if any. */
    function ShownIcon(): (icon: Option<Icon>)
      reads this
      ensures icon != None <==> isEditing && isAvailable != None
      ensures icon == Some(CheckIcon) <==> isEditing && isAvailable == Some(true)
    {
      if isEditing && isAvailable.Some? then
        Some(if isAvailable.value then CheckIcon else CircleIcon)
      else None
    }

    constructor()
      ensures Valid()
      ensures !isEditing && teamName == InitialBadgeName && isAvailable == None
    {
      isEditing := false;
      teamName := InitialBadgeName;
      isAvailable := None;
    }

    /** A click on the badge; it has no handler while editing. */
    method Click()
      requires Valid()
      modifies this
      ensures Valid()
      ensures isEditing
      ensures teamName == old(teamName)
      ensures isAvailable == old(isAvailable)
    {
      if !isEditing {
        isEditing := true;
      }
    }

    /** Typing into the input, which exists only while editing. */
    method Change(value: string)
      requires Valid() && isEditing
      modifies this
      ensures Valid()
      ensures isEditing && teamName == value
      ensures isAvailable == Some(CheckAvailability(value))
      ensures ShownIcon() == Some(if CheckAvailability(value) then CheckIcon else CircleIcon)
    {
      teamName := value;
      isAvailable := Some(CheckAvailability(value));
    }

    /** Leaving the input ends editing and forgets availability. */
    method Blur()
      requires Valid()
      modifies this
      ensures Valid()
      ensures !isEditing && isAvailable == None && ShownIcon() == None
      ensures teamName == old(teamName)
    {
      isEditing := false;
      isAvailable := None;
    }

    /** Enter does what a blur does; other keys do nothing. */
    method KeyDown(key: string)
      requires Valid()
      modifies this
      ensures Valid()
      ensures key == "Enter" ==> !isEditing && isAvailable == None
      ensures key != "Enter" ==> isEditing == old(isEditing) && isAvailable == old(isAvailable)
      ensures teamName == old(teamName)
    {
      if key == "Enter" {
        isEditing := false;
        isAvailable := None;
      }
    }
  }
}

/**
 * The overlapping avatar group: which avatars are drawn, the "+N" bubble
 * for the rest, stacking order, alt text and the defaults.
 *
 * As written, the group takes the first `maxVisible` avatars and only then
 * drops invited and inactive ones, while "+N" counts the shown avatars of
 * the whole list minus `maxVisible`. A shown avatar past the cut can then
 * be neither drawn nor counted (`DrawnAsWritten`, `UndercountExample`).
 * `Drawn` filters first and then cuts, so that every shown avatar is
 * either drawn or counted (`DrawnPlusExtraIsShown`).
 */
module AvatarGroup {
  import opened Wrappers
  import Text

  const DefaultMaxVisible: nat := 5
  const DefaultSize: int := 40
  const DefaultOverlap: int := 14

  datatype AvatarStatus = Active | Invited | Inactive

  /** One entry of the `avatars` prop; `labelText` is its `label`, renamed
      because `label` is a Dafny keyword. */
  datatype Avatar = Avatar(
    src: string, alt: Option<string>, labelText: Option<string>,
    status: Option<AvatarStatus>, active: bool)

  /** Invited and inactive avatars are never drawn; one without a status is. */
  predicate Shown(a: Avatar) {
    a.status != Some(Inactive) && a.status != Some(Invited)
  }

  function CountShown(s: seq<Avatar>): (n: nat)
    ensures n <= |s|
  {
    if s == [] then 0 else (if Shown(s[0]) then 1 else 0) + CountShown(s[1..])
  }

  /** The shown avatars, in order. */
  function FilterShown(s: seq<Avatar>): (r: seq<Avatar>)
    ensures |r| == CountShown(s)
    ensures forall x :: x in r <==> x in s && Shown(x)
  {
    if s == [] then []
    else
      assert s == [s[0]] + s[1..];
      (if Shown(s[0]) then [s[0]] else []) + FilterShown(s[1..])
  }

  /** Filtering a concatenation filters each part: the shown avatars keep
      their relative order. */
  lemma {:induction false} FilterShownAppend(a: seq<Avatar>, b: seq<Avatar>)
    ensures FilterShown(a + b) == FilterShown(a) + FilterShown(b)
  {
    if a == [] {
      assert a + b == b;
    } else {
      assert (a + b)[1..] == a[1..] + b;
      FilterShownAppend(a[1..], b);
    }
  }

  /** A shown avatar sits in the filtered list right after the shown
      avatars before it. */
  lemma FilterShownPosition(s: seq<Avatar>, i: nat)
    requires i < |s| && Shown(s[i])
    ensures CountShown(s[..i]) < |FilterShown(s)|
    ensures FilterShown(s)[CountShown(s[..i])] == s[i]
  {
    assert s == s[..i] + ([s[i]] + s[i + 1..]);
    FilterShownAppend(s[..i], [s[i]] + s[i + 1..]);
    FilterShownAppend([s[i]], s[i + 1..]);
    assert FilterShown([s[i]]) == [s[i]] by {
      assert [s[i]][1..] == [];
    }
  }

  /** `slice(0, maxVisible)`. */
  function Take(s: seq<Avatar>, maxVisible: nat): (r: seq<Avatar>)
    ensures |r| == if maxVisible < |s| then maxVisible else |s|
    ensures r == s[..|r|]
  {
    if maxVisible < |s| then s[..maxVisible] else s
  }

  /** `extraCount`: shown avatars of the whole list beyond `maxVisible`
      (negative when there are fewer). */
  function ExtraCount(s: seq<Avatar>, maxVisible: nat): int {
    CountShown(s) - maxVisible
  }

  /** The drawn avatars as written: cut first, then filter. */
  function DrawnAsWritten(s: seq<Avatar>, maxVisible: nat): (r: seq<Avatar>)
    ensures |r| <= maxVisible
    ensures var k := if maxVisible < |s| then maxVisible else |s|;
      |r| == CountShown(s[..k]) && forall x :: x in r <==> x in s[..k] && Shown(x)
  {
    FilterShown(Take(s, maxVisible))
  }

  /** The drawn avatars as intended: filter first, then cut. */
  function Drawn(s: seq<Avatar>, maxVisible: nat): (r: seq<Avatar>)
    ensures |r| == if maxVisible < CountShown(s) then maxVisible else CountShown(s)
    ensures forall x :: x in r ==> Shown(x) && x in s
    ensures r == FilterShown(s)[..|r|]
  {
    Take(FilterShown(s), maxVisible)
  }

  /** A prefix has no more shown avatars than the whole list. */
  lemma {:induction false} CountShownPrefix(s: seq<Avatar>, k: nat)
    requires k <= |s|
    ensures CountShown(s[..k]) <= CountShown(s)
  {
    if k > 0 {
      assert s[..k][1..] == s[1..][..k - 1];
      CountShownPrefix(s[1..], k - 1);
    }
  }

  /** With the corrected order each shown avatar is drawn or counted in "+N". */
  lemma DrawnPlusExtraIsShown(s: seq<Avatar>, maxVisible: nat)
    ensures |Drawn(s, maxVisible)| + (if ExtraCount(s, maxVisible) > 0 then ExtraCount(s, maxVisible) else 0) == CountShown(s)
  {
  }

  /** As written, drawn plus "+N" never exceeds the shown avatars. */
  lemma AsWrittenNeverOvercounts(s: seq<Avatar>, maxVisible: nat)
    ensures |DrawnAsWritten(s, maxVisible)| + (if ExtraCount(s, maxVisible) > 0 then ExtraCount(s, maxVisible) else 0) <= CountShown(s)
  {
    CountShownPrefix(s, |Take(s, maxVisible)|);
  }

  /** An invited avatar before two active ones, at most two visible: one
      avatar is drawn, the bubble is absent, and two are shown. */
  lemma UndercountExample(invited: Avatar, first: Avatar, second: Avatar)
    requires invited.status == Some(Invited)
    requires first.status == Some(Active) && second.status == Some(Active)
    ensures CountShown([invited, first, second]) == 2
    ensures |DrawnAsWritten([invited, first, second], 2)| == 1
    ensures ExtraCount([invited, first, second], 2) == 0
    ensures |Drawn([invited, first, second], 2)| == 2
  {
    var s := [invited, first, second];
    assert s[1..] == [first, second];
    assert s[1..][1..] == [second];
    assert s[..2] == [invited, first];
    assert s[..2][1..] == [first];
    assert [second][1..] == [];
    assert [first][1..] == [];
    assert CountShown([second]) == 1;
    assert CountShown([first, second]) == 2;
  }

  /** Unhovered avatars stack left over right: `zIndex` is the number of
      visible candidates minus the position; the hovered one rises to 100. */
  function ZIndex(hovered: Option<nat>, idx: nat, visibleCount: nat): (z: int)
    ensures hovered == Some(idx) ==> z == 100
    ensures hovered != Some(idx) && idx < visibleCount ==> 0 < z <= visibleCount
    ensures hovered != Some(idx) ==> z + idx == visibleCount
  {
    if hovered == Some(idx) then 100 else visibleCount - idx
  }

  /** Every drawn, unhovered avatar is above the next one and above the bubble (zIndex 0). */
  lemma ZIndexOrder(hovered: Option<nat>, i: nat, j: nat, visibleCount: nat)
    requires i < j < visibleCount
    requires hovered != Some(i) && hovered != Some(j)
    ensures ZIndex(hovered, i, visibleCount) > ZIndex(hovered, j, visibleCount) > 0
  {
  }

  /** `alt || "Avatar {idx + 1}"`. */
  function AltText(a: Avatar, idx: nat): (t: string)
    ensures a.alt.Some? && a.alt.value != "" ==> t == a.alt.value
    ensures !(a.alt.Some? && a.alt.value != "") ==> |t| > 7 && t[..7] == "Avatar " && t[7..] == Text.NatToString(idx + 1)
  {
    if a.alt.Some? && a.alt.value != "" then a.alt.value else "Avatar " + Text.NatToString(idx + 1)
  }

  /** One drawn avatar: image source, alt text, stacking, size, overlap,
      lifted on hover, the tooltip's label and whether "• Active" follows it,
      and the green dot. */
  datatype AvatarView = AvatarView(
    src: string, alt: string, zIndex: int, width: int, marginLeft: int,
    lifted: bool, tooltip: Option<string>, activeTag: bool, activeDot: bool)

  datatype GroupView = GroupView(avatars: seq<AvatarView>, bubble: Option<int>)

  /** What a drawn avatar shows of its data: its own image or the
      placeholder, its alt text, its stacking, the lift and the label's
      tooltip only while hovered, "• Active" after that label iff the avatar
      is active, and the green dot iff it is active. */
  predicate DrawsAvatar(v: AvatarView, a: Avatar, idx: nat, visibleCount: nat, hovered: Option<nat>) {
    && (a.src != "" ==> v.src == a.src)
    && (a.src == "" ==> v.src == "/placeholder.svg")
    && v.alt == AltText(a, idx)
    && v.zIndex == ZIndex(hovered, idx, visibleCount)
    && (v.lifted <==> hovered == Some(idx))
    && (v.tooltip.Some? <==> hovered == Some(idx) && a.labelText.Some? && a.labelText.value != "")
    && (v.tooltip.Some? ==> v.tooltip == a.labelText)
    && (v.activeTag <==> v.tooltip.Some? && a.active)
    && (v.activeDot <==> a.active)
  }

  function ViewOf(a: Avatar, idx: nat, visibleCount: nat, size: int, overlap: int, hovered: Option<nat>): AvatarView {
    AvatarView(
      if a.src != "" then a.src else "/placeholder.svg",
      AltText(a, idx),
      ZIndex(hovered, idx, visibleCount),
      size, -overlap,
      hovered == Some(idx),
      if hovered == Some(idx) && a.labelText.Some? && a.labelText.value != "" then a.labelText else None,
      hovered == Some(idx) && a.labelText.Some? && a.labelText.value != "" && a.active,
      a.active)
  }

  /** The group as written, with the documented defaults for missing props. */
  function RenderAsWritten(s: seq<Avatar>, maxVisible: Option<nat>, size: Option<int>, overlap: Option<int>, hovered: Option<nat>): (v: GroupView)
    ensures var m := maxVisible.GetOr(DefaultMaxVisible);
      |v.avatars| == |DrawnAsWritten(s, m)| &&
      (v.bubble.Some? <==> ExtraCount(s, m) > 0) &&
      (v.bubble.Some? ==> v.bubble.value == ExtraCount(s, m))
    ensures forall i :: 0 <= i < |v.avatars| ==>
      v.avatars[i].width == size.GetOr(DefaultSize) && v.avatars[i].marginLeft == -overlap.GetOr(DefaultOverlap)
    ensures var m := maxVisible.GetOr(DefaultMaxVisible); var d := DrawnAsWritten(s, m);
      forall i :: 0 <= i < |v.avatars| ==> DrawsAvatar(v.avatars[i], d[i], i, |Take(s, m)|, hovered)
  {
    var m := maxVisible.GetOr(DefaultMaxVisible);
    var visible := Take(s, m);
    var drawn := FilterShown(visible);
    var extra := ExtraCount(s, m);
    GroupView(
      seq(|drawn|, i requires 0 <= i < |drawn| =>
        ViewOf(drawn[i], i, |visible|, size.GetOr(DefaultSize), overlap.GetOr(DefaultOverlap), hovered)),
      if extra > 0 then Some(extra) else None)
  }

  /** The group with the corrected order; every shown avatar is drawn or
      counted in the bubble. */
  function Render(s: seq<Avatar>, maxVisible: Option<nat>, size: Option<int>, overlap: Option<int>, hovered: Option<nat>): (v: GroupView)
    ensures var m := maxVisible.GetOr(DefaultMaxVisible);
      |v.avatars| == |Drawn(s, m)| &&
      (v.bubble.Some? <==> ExtraCount(s, m) > 0) &&
      |v.avatars| + (if v.bubble.Some? then v.bubble.value else 0) == CountShown(s)
    ensures forall i :: 0 <= i < |v.avatars| ==>
      v.avatars[i].width == size.GetOr(DefaultSize) && v.avatars[i].marginLeft == -overlap.GetOr(DefaultOverlap)
    ensures var m := maxVisible.GetOr(DefaultMaxVisible); var d := Drawn(s, m);
      forall i :: 0 <= i < |v.avatars| ==> DrawsAvatar(v.avatars[i], d[i], i, |d|, hovered)
  {
    var m := maxVisible.GetOr(DefaultMaxVisible);
    var drawn := Drawn(s, m);
    var extra := ExtraCount(s, m);
    DrawnPlusExtraIsShown(s, m);
    GroupView(
      seq(|drawn|, i requires 0 <= i < |drawn| =>
        ViewOf(drawn[i], i, |drawn|, size.GetOr(DefaultSize), overlap.GetOr(DefaultOverlap), hovered)),
      if extra > 0 then Some(extra) else None)
  }
}

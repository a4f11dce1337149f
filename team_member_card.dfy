/**
 * One row of the team page: who may manage a member and change their role,
 * the initials shown when there is no avatar, the status line and the role
 * badge, and the actions offered in the row's menu.
 */
module TeamMemberCard {
  import opened Wrappers
  import Text

  datatype Role = Owner | Admin | Editor | Viewer
  datatype Status = Active | Invited | Inactive

  datatype Member = Member(
    id: string, name: string, email: string, role: Role,
    avatar: string, status: Status, lastActive: Option<string>)

  datatype BadgeVariant = Outline | Secondary | Default

  datatype MenuAction = SendEmail | ResendInvite | ChangeRole(target: Role, enabled: bool) | Remove

  predicate IsCurrentUser(m: Member, currentUserId: string) {
    m.id == currentUserId
  }

  /** Owners and admins may manage anyone but themselves. */
  predicate CanManageUser(m: Member, currentUserId: string, currentUserRole: Role) {
    (currentUserRole == Owner || currentUserRole == Admin) && !IsCurrentUser(m, currentUserId)
  }

  /** Whether the viewer may move `m` to `target`: an owner may do so for
      anyone else; an admin only for a non-owner and never to owner. */
  function CanChangeRole(m: Member, currentUserId: string, currentUserRole: Role, target: Role): (r: bool)
    ensures r ==> CanManageUser(m, currentUserId, currentUserRole)
    ensures r <==> (m.id != currentUserId &&
      (currentUserRole == Owner || (currentUserRole == Admin && m.role != Owner && target != Owner)))
  {
    if !CanManageUser(m, currentUserId, currentUserRole) then false
    else if currentUserRole != Owner && (m.role == Owner || target == Owner) then false
    else true
  }

  /** A non-owner can neither change an owner's role nor grant the owner role. */
  lemma NonOwnerCannotTouchOwnership(m: Member, currentUserId: string, currentUserRole: Role, target: Role)
    requires currentUserRole != Owner
    requires m.role == Owner || target == Owner
    ensures !CanChangeRole(m, currentUserId, currentUserRole, target)
  {
  }

  function BadgeVariantOf(role: Role): (v: BadgeVariant)
    ensures v == Outline <==> role == Owner || role == Viewer
    ensures v == Secondary <==> role == Admin
    ensures v == Default <==> role == Editor
  {
    match role
    case Owner => Outline
    case Admin => Secondary
    case Editor => Default
    case Viewer => Outline
  }

  /** `lastActive` counts only when it is a non-empty string. */
  predicate HasLastActive(m: Member) {
    m.lastActive.Some? && m.lastActive.value != ""
  }

  function StatusText(m: Member): (r: string)
    ensures m.status == Active && HasLastActive(m) ==> r == "Last active " + m.lastActive.value
    ensures r == "Invitation sent" <==> m.status == Invited
    ensures r == "Inactive" <==> m.status == Inactive || (m.status == Active && !HasLastActive(m))
  {
    assert "Inactive"[2] != "Invitation sent"[2];
    match m.status
    case Active =>
      if HasLastActive(m) then
        var r := "Last active " + m.lastActive.value;
        assert r[0] == 'L';
        r
      else "Inactive"
    case Invited => "Invitation sent"
    case Inactive => "Inactive"
  }

  /** Whether a menu offers moving the member to `t`, enabled or not. */
  predicate OffersRole(actions: seq<MenuAction>, t: Role) {
    exists enabled :: ChangeRole(t, enabled) in actions
  }

  /** The row's menu: e-mail always; "Resend Invite" for invited members when
      the list supplies a handler; the role changes and removal when the
      viewer may manage the member. "Make Owner" is never offered. */
  function MenuActions(m: Member, currentUserId: string, currentUserRole: Role, hasResendHandler: bool): (r: seq<MenuAction>)
    ensures |r| >= 1 && r[0] == SendEmail
    ensures ResendInvite in r <==> m.status == Invited && hasResendHandler
    ensures Remove in r <==> CanManageUser(m, currentUserId, currentUserRole)
    ensures forall a :: a in r && a.ChangeRole? ==>
      a.target != Owner && a.enabled == CanChangeRole(m, currentUserId, currentUserRole, a.target)
    ensures forall t :: OffersRole(r, t) <==> CanManageUser(m, currentUserId, currentUserRole) && t != Owner
  {
    var resend := if m.status == Invited && hasResendHandler then [ResendInvite] else [];
    var manage :=
      if CanManageUser(m, currentUserId, currentUserRole) then
        [ChangeRole(Admin, CanChangeRole(m, currentUserId, currentUserRole, Admin)),
         ChangeRole(Editor, CanChangeRole(m, currentUserId, currentUserRole, Editor)),
         ChangeRole(Viewer, CanChangeRole(m, currentUserId, currentUserRole, Viewer)),
         Remove]
      else [];
    [SendEmail] + resend + manage
  }

  /** The avatar image is shown when there is one; otherwise the initials. */
  predicate ShowsInitials(m: Member) {
    m.avatar == ""
  }

  /** First characters of the pieces, skipping empty pieces (whose `n[0]` is
      `undefined` and joins as nothing). */
  function Heads(ws: seq<string>): string {
    if ws == [] then []
    else (if ws[0] == [] then [] else [ws[0][0]]) + Heads(ws[1..])
  }

  /** The characters of `s` that begin a word, i.e. follow a space or the
      start (`atStart` says whether the previous character was a space). */
  function WordStarts(s: string, atStart: bool): string {
    if s == [] then []
    else if s[0] == ' ' then WordStarts(s[1..], true)
    else (if atStart then [s[0]] else []) + WordStarts(s[1..], false)
  }

  /** Taking first characters of the space-separated pieces picks exactly
      the characters that begin words. */
  lemma {:induction false} HeadsOfSplit(s: string)
    ensures Heads(Text.Split(s, ' ')) == WordStarts(s, true)
    ensures Heads(Text.Split(s, ' ')[1..]) == WordStarts(s, false)
  {
    if s != [] {
      var rest := Text.Split(s[1..], ' ');
      HeadsOfSplit(s[1..]);
      if s[0] == ' ' {
        assert Text.Split(s, ' ') == [[]] + rest;
        assert ([[]] + rest)[1..] == rest;
      } else {
        var w := [s[0]] + rest[0];
        assert Text.Split(s, ' ') == [w] + rest[1..];
        assert ([w] + rest[1..])[1..] == rest[1..];
      }
    }
  }

  /** `name.split(" ").map(n => n[0]).join("").toUpperCase().substring(0, 2)`. */
  function Initials(name: string): (r: string)
    ensures |r| == if |WordStarts(name, true)| < 2 then |WordStarts(name, true)| else 2
    ensures r == Text.ToUpper(WordStarts(name, true))[..|r|]
  {
    HeadsOfSplit(name);
    var u := Text.ToUpper(Heads(Text.Split(name, ' ')));
    if |u| <= 2 then u else u[..2]
  }

  /** A word without spaces contributes no word start after its first character. */
  lemma {:induction false} WordStartsSkipWord(w: string, rest: string)
    requires ' ' !in w
    ensures WordStarts(w + rest, false) == WordStarts(rest, false)
  {
    if w != [] {
      assert (w + rest)[1..] == w[1..] + rest;
      WordStartsSkipWord(w[1..], rest);
    } else {
      assert w + rest == rest;
    }
  }

  /** Two words joined by one space give the upper-cased first letters of both. */
  lemma TwoWordInitials(a: string, b: string)
    requires a != [] && b != [] && ' ' !in a && ' ' !in b
    ensures Initials(a + " " + b) == [Text.UpperChar(a[0]), Text.UpperChar(b[0])]
  {
    var s := a + " " + b;
    assert s[1..] == a[1..] + (" " + b);
    WordStartsSkipWord(a[1..], " " + b);
    assert (" " + b)[1..] == b;
    assert b == b[..1] + b[1..];
    WordStartsSkipWord(b[1..], []);
    assert b[1..] + [] == b[1..];
    assert WordStarts(s, true) == [a[0], b[0]];
  }
}

/**
 * The team page's member list: search and the two filters, the ordering by
 * role, then activity, then name, and the five-per-page pagination with its
 * page counter.
 */
module TeamMembersList {
  import opened Wrappers
  import Text
  import opened TeamMemberCard

  const ItemsPerPage: nat := 5

  // ---------------------------------------------------------------------
  // Filtering

  /** Case-insensitive substring of the name or the e-mail; "" matches all. */
  predicate MatchesSearch(m: Member, query: string) {
    query == "" ||
    Text.Contains(Text.ToLower(m.name), Text.ToLower(query)) ||
    Text.Contains(Text.ToLower(m.email), Text.ToLower(query))
  }

  /** `None` stands for the "all" choice of a filter. */
  predicate MatchesRole(m: Member, roleFilter: Option<Role>) {
    roleFilter.None? || m.role == roleFilter.value
  }

  predicate MatchesStatus(m: Member, statusFilter: Option<Status>) {
    statusFilter.None? || m.status == statusFilter.value
  }

  predicate Matches(m: Member, query: string, roleFilter: Option<Role>, statusFilter: Option<Status>) {
    MatchesSearch(m, query) && MatchesRole(m, roleFilter) && MatchesStatus(m, statusFilter)
  }

  /** The members passing all three filters, each as often as in `ms`. */
  function Filter(ms: seq<Member>, query: string, roleFilter: Option<Role>, statusFilter: Option<Status>): (r: seq<Member>)
    ensures forall x :: x in r ==> Matches(x, query, roleFilter, statusFilter)
    ensures forall x :: multiset(r)[x] == if Matches(x, query, roleFilter, statusFilter) then multiset(ms)[x] else 0
  {
    if ms == [] then []
    else
      assert ms == [ms[0]] + ms[1..];
      var rest := Filter(ms[1..], query, roleFilter, statusFilter);
      if Matches(ms[0], query, roleFilter, statusFilter) then [ms[0]] + rest else rest
  }

  // ---------------------------------------------------------------------
  // Ordering

  function RoleRank(role: Role): nat {
    match role
    case Owner => 0
    case Admin => 1
    case Editor => 2
    case Viewer => 3
  }

  /** Active members first; invited and inactive are not ordered by status. */
  function StatusRank(status: Status): nat {
    if status == Active then 0 else 1
  }

  /** Names compare by code point, lexicographically. */
  predicate StrLe(a: string, b: string)
    decreases |a|
  {
    a == [] || (b != [] && (a[0] < b[0] || (a[0] == b[0] && StrLe(a[1..], b[1..]))))
  }

  lemma {:induction false} StrLeTotal(a: string, b: string)
    ensures StrLe(a, b) || StrLe(b, a)
    decreases |a|
  {
    if a != [] && b != [] && a[0] == b[0] {
      StrLeTotal(a[1..], b[1..]);
    }
  }

  lemma {:induction false} StrLeTrans(a: string, b: string, c: string)
    requires StrLe(a, b) && StrLe(b, c)
    ensures StrLe(a, c)
    decreases |a|
  {
    if a != [] && b != [] && c != [] && a[0] == b[0] && b[0] == c[0] {
      StrLeTrans(a[1..], b[1..], c[1..]);
    }
  }

  /** `a` may come before `b`: the comparator's three keys in order. */
  predicate Before(a: Member, b: Member) {
    RoleRank(a.role) < RoleRank(b.role) ||
    (RoleRank(a.role) == RoleRank(b.role) &&
      (StatusRank(a.status) < StatusRank(b.status) ||
        (StatusRank(a.status) == StatusRank(b.status) && StrLe(a.name, b.name))))
  }

  lemma BeforeTotal(a: Member, b: Member)
    ensures Before(a, b) || Before(b, a)
  {
    StrLeTotal(a.name, b.name);
  }

  lemma BeforeTrans(a: Member, b: Member, c: Member)
    requires Before(a, b) && Before(b, c)
    ensures Before(a, c)
  {
    if RoleRank(a.role) == RoleRank(b.role) == RoleRank(c.role) &&
       StatusRank(a.status) == StatusRank(b.status) == StatusRank(c.status) {
      StrLeTrans(a.name, b.name, c.name);
    }
  }

  predicate Sorted(s: seq<Member>) {
    forall i, j :: 0 <= i < j < |s| ==> Before(s[i], s[j])
  }

  /** Putting before a sorted list an element that precedes all of it keeps it sorted. */
  lemma SortedCons(y: Member, t: seq<Member>)
    requires Sorted(t)
    requires forall z :: z in multiset(t) ==> Before(y, z)
    ensures Sorted([y] + t)
  {
    var s := [y] + t;
    forall i, j | 0 <= i < j < |s|
      ensures Before(s[i], s[j])
    {
      if i == 0 {
        assert s[j] == t[j - 1];
        assert t[j - 1] in multiset(t);
      } else {
        assert s[i] == t[i - 1] && s[j] == t[j - 1];
      }
    }
  }

  /** An element placed before the head of a sorted list precedes all of it. */
  lemma BeforeHeadBeforeAll(x: Member, s: seq<Member>)
    requires Sorted(s) && s != [] && Before(x, s[0])
    ensures Sorted([x] + s)
  {
    forall z | z in multiset(s) ensures Before(x, z) {
      var k :| 0 <= k < |s| && s[k] == z;
      if k > 0 { BeforeTrans(x, s[0], s[k]); }
    }
    SortedCons(x, s);
  }

  /** The head of a sorted list precedes everything of its tail with `x` added. */
  lemma HeadBeforeInserted(x: Member, s: seq<Member>, rest: seq<Member>)
    requires Sorted(s) && s != [] && Before(s[0], x)
    requires Sorted(rest) && multiset(rest) == multiset(s[1..]) + multiset{x}
    ensures Sorted([s[0]] + rest)
  {
    forall z | z in multiset(rest) ensures Before(s[0], z) {
      if z != x {
        assert z in multiset(s[1..]);
        var k :| 0 <= k < |s[1..]| && s[1..][k] == z;
        assert s[k + 1] == z;
      }
    }
    SortedCons(s[0], rest);
  }

  function Insert(x: Member, s: seq<Member>): (r: seq<Member>)
    requires Sorted(s)
    ensures Sorted(r)
    ensures multiset(r) == multiset(s) + multiset{x}
  {
    if s == [] then [x]
    else if Before(x, s[0]) then
      BeforeHeadBeforeAll(x, s);
      [x] + s
    else
      assert s == [s[0]] + s[1..];
      BeforeTotal(x, s[0]);
      var rest := Insert(x, s[1..]);
      HeadBeforeInserted(x, s, rest);
      [s[0]] + rest
  }

  /** The list in display order: a sorted permutation of its input. */
  function Sort(s: seq<Member>): (r: seq<Member>)
    ensures Sorted(r)
    ensures multiset(r) == multiset(s)
  {
    if s == [] then []
    else
      assert s == [s[0]] + s[1..];
      Insert(s[0], Sort(s[1..]))
  }

  /** `filteredMembers`: the matching members, sorted. */
  function FilteredMembers(ms: seq<Member>, query: string, roleFilter: Option<Role>, statusFilter: Option<Status>): seq<Member> {
    Sort(Filter(ms, query, roleFilter, statusFilter))
  }

  /** Every listed member matches, and every matching member is listed as
      often as it occurs in the input; role rank never decreases, and within
      one role an active member comes before any member that is not. */
  lemma FilteredMembersSpec(ms: seq<Member>, query: string, roleFilter: Option<Role>, statusFilter: Option<Status>)
    ensures var r := FilteredMembers(ms, query, roleFilter, statusFilter);
      (forall x :: multiset(r)[x] == if Matches(x, query, roleFilter, statusFilter) then multiset(ms)[x] else 0) &&
      (forall i :: 0 <= i < |r| ==> Matches(r[i], query, roleFilter, statusFilter)) &&
      (forall i, j :: 0 <= i < j < |r| ==> RoleRank(r[i].role) <= RoleRank(r[j].role)) &&
      (forall i, j :: 0 <= i < j < |r| && r[i].role == r[j].role && r[j].status == Active ==> r[i].status == Active)
  {
    var f := Filter(ms, query, roleFilter, statusFilter);
    var r := Sort(f);
    forall i | 0 <= i < |r| ensures Matches(r[i], query, roleFilter, statusFilter) {
      assert r[i] in multiset(r);
      assert r[i] in f;
    }
  }

  // ---------------------------------------------------------------------
  // Pagination

  /** `Math.ceil(n / itemsPerPage)`. */
  function TotalPages(n: nat): (t: nat)
    ensures (t - 1) * ItemsPerPage < n <= t * ItemsPerPage || (n == 0 && t == 0)
  {
    (n + ItemsPerPage - 1) / ItemsPerPage
  }

  /** `slice(start, start + 5)` with `start = (page - 1) * 5`; `slice`
      clamps both ends to the list. */
  function PageOf(s: seq<Member>, page: nat): (r: seq<Member>)
    requires page >= 1
    ensures |r| <= ItemsPerPage
    ensures |r| == if |s| <= (page - 1) * ItemsPerPage then 0
                   else if |s| - (page - 1) * ItemsPerPage < ItemsPerPage then |s| - (page - 1) * ItemsPerPage
                   else ItemsPerPage
    ensures forall k :: 0 <= k < |r| ==> r[k] == s[(page - 1) * ItemsPerPage + k]
  {
    var start := (page - 1) * ItemsPerPage;
    if |s| <= start then []
    else if |s| < start + ItemsPerPage then s[start..]
    else s[start..start + ItemsPerPage]
  }

  /** Each member of the list sits on exactly one page, at its position modulo five. */
  lemma PagesCoverList(s: seq<Member>, i: nat)
    requires i < |s|
    ensures i / ItemsPerPage + 1 <= TotalPages(|s|)
    ensures var p := PageOf(s, i / ItemsPerPage + 1); i % ItemsPerPage < |p| && p[i % ItemsPerPage] == s[i]
  {
  }

  /** "Showing a to b of n": a is the first index shown, b = min(p*5, n). */
  function ShowingFrom(page: nat): nat
    requires page >= 1
  {
    (page - 1) * ItemsPerPage + 1
  }

  function ShowingTo(page: nat, n: nat): nat {
    if page * ItemsPerPage < n then page * ItemsPerPage else n
  }

  /** On an existing page the counter names exactly the members shown. */
  lemma ShowingCountsPage(s: seq<Member>, page: nat)
    requires 1 <= page <= TotalPages(|s|)
    ensures ShowingFrom(page) <= ShowingTo(page, |s|)
    ensures ShowingTo(page, |s|) - ShowingFrom(page) + 1 == |PageOf(s, page)|
  {
  }

  // ---------------------------------------------------------------------
  // The component's state

  class MemberListView {
    const members: seq<Member>
    const currentUserId: string
    const currentUserRole: Role
    var searchQuery: string
    var roleFilter: Option<Role>
    var statusFilter: Option<Status>
    var currentPage: nat

    function Filtered(): seq<Member>
      reads this
    {
      FilteredMembers(members, searchQuery, roleFilter, statusFilter)
    }

    function Pages(): nat
      reads this
    {
      TotalPages(|Filtered()|)
    }

    /** The members on the current page. */
    function Paginated(): seq<Member>
      reads this
      requires currentPage >= 1
    {
      PageOf(Filtered(), currentPage)
    }

    /** The page is 1, or one that exists for the current filters. */
    predicate Valid()
      reads this
    {
      currentPage == 1 || 1 <= currentPage <= Pages()
    }

    predicate ShowsPagination()
      reads this
    {
      Pages() > 1
    }

    /** The invite button is there for owners and admins. */
    predicate ShowsInviteButton()
      reads this
    {
      currentUserRole == Owner || currentUserRole == Admin
    }

    constructor(members: seq<Member>, currentUserId: string, currentUserRole: Role)
      ensures this.members == members && this.currentUserId == currentUserId
      ensures this.currentUserRole == currentUserRole
      ensures searchQuery == "" && roleFilter == None && statusFilter == None && currentPage == 1
      ensures Valid()
    {
      this.members := members;
      this.currentUserId := currentUserId;
      this.currentUserRole := currentUserRole;
      searchQuery := "";
      roleFilter := None;
      statusFilter := None;
      currentPage := 1;
    }

    /** Under the invariant the page is empty exactly when nothing matches,
        which is when "No team members found" is shown. */
    lemma EmptyPageIffNoMatch()
      requires Valid()
      ensures Paginated() == [] <==> Filtered() == []
    {
    }

    method SetSearchQuery(q: string)
      modifies this
      ensures searchQuery == q && currentPage == 1
      ensures roleFilter == old(roleFilter) && statusFilter == old(statusFilter)
      ensures Valid()
    {
      searchQuery := q;
      currentPage := 1;
    }

    method SetRoleFilter(f: Option<Role>)
      modifies this
      ensures roleFilter == f && currentPage == 1
      ensures searchQuery == old(searchQuery) && statusFilter == old(statusFilter)
      ensures Valid()
    {
      roleFilter := f;
      currentPage := 1;
    }

    method SetStatusFilter(f: Option<Status>)
      modifies this
      ensures statusFilter == f && currentPage == 1
      ensures searchQuery == old(searchQuery) && roleFilter == old(roleFilter)
      ensures Valid()
    {
      statusFilter := f;
      currentPage := 1;
    }

    /** The previous-page button: `Math.max(prev - 1, 1)`. */
    method PreviousPage()
      requires Valid()
      modifies this
      ensures currentPage == if old(currentPage) > 1 then old(currentPage) - 1 else 1
      ensures currentPage >= 1
      ensures searchQuery == old(searchQuery) && roleFilter == old(roleFilter) && statusFilter == old(statusFilter)
      ensures Valid()
    {
      currentPage := if currentPage - 1 > 1 then currentPage - 1 else 1;
    }

    /** The next-page button, which exists only while pagination is shown:
        `Math.min(prev + 1, totalPages)`. */
    method NextPage()
      requires Valid() && ShowsPagination()
      modifies this
      ensures currentPage == if old(currentPage) + 1 < Pages() then old(currentPage) + 1 else Pages()
      ensures currentPage <= Pages()
      ensures searchQuery == old(searchQuery) && roleFilter == old(roleFilter) && statusFilter == old(statusFilter)
      ensures Valid()
    {
      var total := Pages();
      currentPage := if currentPage + 1 < total then currentPage + 1 else total;
    }
  }
}

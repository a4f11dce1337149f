# devscribe-docs: a Dafny model of the dashboard and sign-in logic

devscribe-docs is a Next.js documentation portal. Rendering a page's Markdown
is left to the Markdoc library. What the application decides for itself sits
in small rules and state machines inside its React components, and this
project models those:

- **Team-member list** (`TeamMembersList`, `TeamMemberCard`):
  - filtering by search text, role and status;
  - ordering by role rank, then active first, then name;
  - five members per page, with the page reset and clamp rules;
  - who may manage whom, the role menu, initials, status text and role badges.
- **Route guard** (`Middleware`):
  - protected routes (/dashboard, /editor and their sub-paths) and public routes (/login, /register);
  - session expiry;
  - which redirect fires.
- **Sign-up and login forms** (`SignUp`, `Login`, `EmailPattern`):
  - the e-mail pattern `^[^\s@]+@[^\s@]+\.[^\s@]+$`;
  - the password rules and the order their messages are reported in;
  - the six-slot verification code and the sign-up steps;
  - the mapping from HTTP status to message;
  - the colour-slot expansion and the `u_reverse` flag of the dot-matrix background.
- **List and tree editors**:
  - the invite dialog's e-mail list (`InviteMembers`, `Lists`);
  - the landing page's expandable tree (`LandingFileTree`);
  - the dashboard's folder panel (`FolderTree`);
  - the avatar group's "+N" overflow bubble (`AvatarGroup`).
- **Text and path rules**:
  - the hero title split over two lines (`HeroTitle`);
  - the support chatbot's keyword router (`SupportChatbot`);
  - the footer's visibility (`ConditionalFooter`);
  - the layout's sidebar choice (`Layout`);
  - the Markdown heading level → tag mapping (`Heading`).
- **UI state machines**:
  - the chat window (`SupportChatbot.ChatWindow`);
  - the sidebar's team-name editor and navigation highlight (`Sidebar`);
  - the dashboard's URL badge and greeting (`Dashboard`);
  - the profile-picture upload (`ProfileImageUpload`);
  - the dismissible info card and its media preview (`InfoCard`).

Pure rules are functions with named results, and lemmas relate them. A component
whose handlers update its state is a class. Each handler is a method that states
in `ensures` the new value of every field, and keeps the class's `Valid()`
invariant. Some inputs come from outside the program and become parameters:

- the clock (`now`, `hour`);
- the decoded session cookie;
- server replies;
- picked files;
- the browser's local storage.

A `setTimeout` callback becomes an entry in a `pending` list, run later by an
explicit method, in any order.

Shared modules:

- `Wrappers`: the `Option` type, standing for `null`/`undefined`.
- `Text`: JavaScript's `trim` white space, ASCII case mapping, `includes`, and `split`/`join` on one character.
- `EmailPattern`: the e-mail regular expression as a reference predicate, plus an executable check proved equal to it.
- `Lists`: string lists without duplicates, and removal of every occurrence of a value.

## Model

| member | source | states |
|---|---|---|
| Text.TrimStart | src/components/dashboard/sidebar.tsx:92-93 | `trimStart` keeps a suffix of the input; everything it drops is white space; the result starts with a non-space or is empty |
| Text.TrimEnd | src/components/dashboard/sidebar.tsx:92-93 | `trimEnd` keeps a prefix; everything it drops is white space; the result ends with a non-space or is empty |
| Text.TrimProperties | src/components/dashboard/support-chatbot.tsx:110 | `trim()` is empty exactly when the input is blank; it is a slice of the input; it neither starts nor ends with white space |
| Text.TrimEmptyIffBlank | src/components/dashboard/support-chatbot.tsx:110 | `trim()` is empty exactly when the input is blank |
| Text.TrimIsSlice | src/components/dashboard/sidebar.tsx:92-93 | `trim()` returns a contiguous slice of its input |
| Text.TrimEnds | src/components/dashboard/sidebar.tsx:92-93 | a non-empty trim neither starts nor ends with white space |
| Text.TrimTrimmed | src/components/dashboard/sidebar.tsx:92-93 | trimming a string that neither starts nor ends with white space gives the string back |
| Text.ToLower | src/components/dashboard/support-chatbot.tsx:142 | `toLowerCase` keeps the length and lower-cases each character in place |
| Text.ToUpper | src/components/dashboard/team-member-card.tsx:99 | `toUpperCase` keeps the length and upper-cases each character in place |
| Text.Contains | src/components/dashboard/support-chatbot.tsx:144-186 | `includes` holds exactly when the needle occurs at some index |
| Text.ContainsShift | src/components/dashboard/support-chatbot.tsx:144-186 | an occurrence in the tail of a string is an occurrence in the whole string |
| Text.ContainsHasChars | src/components/dashboard/support-chatbot.tsx:144-186 | a string that contains a needle contains each of the needle's characters |
| Text.Split | src/components/landing_page/hero-section-new.tsx:41 | `split` yields at least one piece, and no piece contains the separator |
| Text.JoinAppend | src/components/landing_page/hero-section-new.tsx:45-47 | joining a list with one more word appends a separator and that word |
| Text.JoinSplit | src/components/landing_page/hero-section-new.tsx:41-52 | joining the pieces of a split gives back the original string |
| Text.SplitJoin | src/components/landing_page/hero-section-new.tsx:41-52 | splitting a join of separator-free words gives back the words |
| Text.SplitWord | src/components/landing_page/hero-section-new.tsx:41 | a word followed by a separator splits into that word and the split of the rest |
| Text.SplitWordThen | src/components/landing_page/hero-section-new.tsx:41 | the split of a word, a separator and a tail starts with the word |
| Text.NatToString | src/components/dashboard/file-tree.tsx:64 | the decimal rendering of a number is non-empty, made of digits only, has no leading zero, and reads back (`DecimalValue`) as that number |
| EmailPattern.IndexOf | src/components/landing_page/ui/canvas-reveal-signup.tsx:342 | the index found holds the character and no earlier position does; no index means the character is absent |
| EmailPattern.HasInnerDot | src/components/landing_page/ui/canvas-reveal-signup.tsx:342 | true exactly when a dot sits strictly inside the domain, with something on both sides |
| EmailPattern.IsValidEmailMatchesPattern | src/components/landing_page/ui/canvas-reveal-signup.tsx:342-344 | the executable check accepts exactly the strings `^[^\s@]+@[^\s@]+\.[^\s@]+$` matches |
| EmailPattern.EmptyIsNotEmail | src/components/landing_page/ui/canvas-reveal-signup.tsx:342-344 | the empty string does not match the pattern |
| Middleware.Middleware | src/middleware.ts:6-38 | redirects to /login exactly for a protected route with an expired session; redirects to /dashboard exactly for a public route with a live session; otherwise passes the request through |
| Middleware.ProtectedRouteIff | src/middleware.ts:3-12 | a path is protected iff it equals /dashboard or /editor, or starts with one of them followed by "/"; "/dashboardx" is not protected |
| Middleware.RoutesDisjoint | src/middleware.ts:3-13 | no path is both protected and public, so at most one redirect applies |
| Middleware.NoRedirectLoop | src/middleware.ts:28-37 | with the same session and clock, the target of a redirect is passed through |
| Middleware.ExpiryBoundary | src/middleware.ts:22 | a token is live when `exp*1000` equals the clock and expired one millisecond later |
| Middleware.NoSessionGoesToLogin | src/middleware.ts:16-30 | a missing cookie, or one that cannot be decoded, sends a protected route to /login |
| Heading.TagFor | src/components/heading.tsx:7-21 | levels 1 to 6 get the heading tag of that level; any other level gets a div |
| Heading.HeadingAsWritten | src/components/heading.tsx:7-22 | as written, only levels 1 to 6 render, each as the heading of that level with the children as id and content and with that level's size class followed by the shared style |
| Heading.Heading | src/components/heading.tsx:7-22 | agrees with the as-written rendering on levels 1 to 6 and renders the default div for every other level |
| Heading.OutOfRangeLevelRendersNothing | src/components/heading.tsx:20-21 | level 7 and level 0 render nothing as written; with the return added, level 7 renders the div |
| Heading.SizesByLevel | src/components/heading.tsx:9-19 | text sizes run from 3xl for level 1 down to sm for level 6 |
| Layout.Render | src/components/layout/Layout.tsx:17-32 | the sidebar shows on every path except /edit, and the main area's class follows that choice |
| Layout.ApiPagesUseDefaultSidebar | src/components/layout/Layout.tsx:18-24 | API pages get the same sidebar and margin as other pages |
| ConditionalFooter.ConditionalFooter | src/components/landing_page/conditional-footer.tsx:10-14 | the footer is hidden exactly on "/signup" and on every path that starts with "/dashboard"; otherwise it is the default footer |
| ConditionalFooter.PrefixNotSegment | src/components/landing_page/conditional-footer.tsx:10-14 | "/dashboardx" hides the footer; "/signup/x" and "/" show it |
| TeamMemberCard.CanChangeRole | src/components/dashboard/team-member-card.tsx:46-54 | a role change is allowed only for a manageable member; an owner may change any other member to any role; an admin may not touch an owner and may not grant ownership |
| TeamMemberCard.NonOwnerCannotTouchOwnership | src/components/dashboard/team-member-card.tsx:52 | a viewer who is not the owner can neither change an owner's role nor grant the owner role |
| TeamMemberCard.BadgeVariantOf | src/components/dashboard/team-member-card.tsx:56-69 | owner and viewer get the outline badge, admin gets secondary, editor gets default |
| TeamMemberCard.StatusText | src/components/dashboard/team-member-card.tsx:119-123 | "Last active …" for an active member with a last-active time; "Invitation sent" exactly for invited members; "Inactive" for everyone else, including active members without that time |
| TeamMemberCard.MenuActions | src/components/dashboard/team-member-card.tsx:139-190 | "Send Email" comes first; "Resend Invite" appears iff the member is invited and a handler is given; "Remove" iff the member is manageable; "Make Admin", "Make Editor" and "Make Viewer" appear iff the member is manageable, and no item offers owner; each role item is enabled exactly when `canChangeRole` allows it |
| TeamMemberCard.HeadsOfSplit | src/components/dashboard/team-member-card.tsx:95-98 | the first characters of the space-split pieces are the characters that start a word |
| TeamMemberCard.Initials | src/components/dashboard/team-member-card.tsx:95-100 | initials are the word-start characters, upper-cased and cut to at most two |
| TeamMemberCard.WordStartsSkipWord | src/components/dashboard/team-member-card.tsx:95-98 | inside a word, no further word starts are found |
| TeamMemberCard.TwoWordInitials | src/components/dashboard/team-member-card.tsx:95-100 | a two-word name gives the upper-cased first letters of both words |
| TeamMembersList.Filter | src/components/dashboard/team-members-list.tsx:30-45 | every member kept matches search, role and status; each matching member is kept as often as it occurs, and nothing else is kept |
| TeamMembersList.StrLeTotal | src/components/dashboard/team-members-list.tsx:59 | the name order is total |
| TeamMembersList.StrLeTrans | src/components/dashboard/team-members-list.tsx:59 | the name order is transitive |
| TeamMembersList.BeforeTotal | src/components/dashboard/team-members-list.tsx:46-60 | any two members are ordered one way or the other |
| TeamMembersList.BeforeTrans | src/components/dashboard/team-members-list.tsx:46-60 | the member order is transitive |
| TeamMembersList.SortedCons | src/components/dashboard/team-members-list.tsx:46-60 | a member before everything in a sorted list can be put in front of it |
| TeamMembersList.BeforeHeadBeforeAll | src/components/dashboard/team-members-list.tsx:46-60 | a member before the head of a sorted list is before all of it |
| TeamMembersList.HeadBeforeInserted | src/components/dashboard/team-members-list.tsx:46-60 | the head of a sorted list stays first after an insertion behind it |
| TeamMembersList.Insert | src/components/dashboard/team-members-list.tsx:46-60 | inserting into a sorted list keeps it sorted and adds exactly that member |
| TeamMembersList.Sort | src/components/dashboard/team-members-list.tsx:46-60 | the result is sorted by role rank, then active first, then name, and is a permutation of the input |
| TeamMembersList.FilteredMembersSpec | src/components/dashboard/team-members-list.tsx:29-61 | the listed members are a permutation of the matching ones; role rank never decreases along the list; within one role an active member precedes a non-active one |
| TeamMembersList.TotalPages | src/components/dashboard/team-members-list.tsx:64 | the page count is the ceiling of n/5 |
| TeamMembersList.PageOf | src/components/dashboard/team-members-list.tsx:65-68 | page p holds at most 5 members, and they are exactly the members at positions (p-1)*5 onwards, in order |
| TeamMembersList.PagesCoverList | src/components/dashboard/team-members-list.tsx:64-68 | every listed member appears on page i/5+1, and that page exists |
| TeamMembersList.ShowingCountsPage | src/components/dashboard/team-members-list.tsx:182-183 | on an existing page, "Showing a to b" counts exactly the members on that page |
| TeamMembersList.MemberListView.constructor | src/components/dashboard/team-members-list.tsx:19-22 | the list starts with no search text, all roles, all statuses, on page 1 |
| TeamMembersList.MemberListView.EmptyPageIffNoMatch | src/components/dashboard/team-members-list.tsx:159-175 | on a valid page, "No team members found" shows exactly when no member matches |
| TeamMembersList.MemberListView.SetSearchQuery | src/components/dashboard/team-members-list.tsx:103-106 | a new search text resets the page to 1 and leaves the filters alone |
| TeamMembersList.MemberListView.SetRoleFilter | src/components/dashboard/team-members-list.tsx:112-115 | a new role filter resets the page to 1 |
| TeamMembersList.MemberListView.SetStatusFilter | src/components/dashboard/team-members-list.tsx:131-134 | a new status filter resets the page to 1 |
| TeamMembersList.MemberListView.PreviousPage | src/components/dashboard/team-members-list.tsx:189 | previous moves back one page and never below 1 |
| TeamMembersList.MemberListView.NextPage | src/components/dashboard/team-members-list.tsx:200 | next moves forward one page and never beyond the page count |
| SignUp.ValidateEmail | src/components/landing_page/ui/canvas-reveal-signup.tsx:341-346 | "" gives "Email is required"; otherwise the result is "" iff the address matches the pattern, and "Please enter a valid email address" if not |
| SignUp.ValidatePassword | src/components/landing_page/ui/canvas-reveal-signup.tsx:348-359 | "" iff at least 8 characters with an upper-case letter, a lower-case letter and a digit; otherwise the message of the first failing check, in that order |
| SignUp.StrongPasswordNotEmpty | src/components/landing_page/ui/canvas-reveal-signup.tsx:348-375 | an accepted password is never empty, so the request guard `email && password` adds nothing |
| SignUp.ColorSlots | src/components/landing_page/ui/canvas-reveal-signup.tsx:93-98 | 2 colours give c0,c0,c0,c1,c1,c1; 3 give c0,c0,c1,c1,c2,c2; any other count gives six copies of c0 |
| SignUp.EveryColorUsed | src/components/landing_page/ui/canvas-reveal-signup.tsx:93-98 | with one to three colours, every colour appears in the six slots |
| SignUp.ReverseUniform | src/components/landing_page/ui/canvas-reveal-signup.tsx:116-117 | `u_reverse` is 1 iff the shader text contains "u_reverse_active", and 0 otherwise |
| SignUp.ReverseRoundTrip | src/components/landing_page/ui/canvas-reveal-signup.tsx:116-117 | the flag written into the shader text is read back as the direction it encodes |
| SignUp.RegisterResult | src/components/landing_page/ui/canvas-reveal-signup.tsx:381-411 | an OK reply registers; 400 or 422 with an error body yields the field errors it carries; any other reply, or none, ends in "Registration failed. Please try again." |
| SignUp.SignUpPage.constructor | src/components/landing_page/ui/canvas-reveal-signup.tsx:322-339 | the page starts at the e-mail step with empty fields, six empty code slots and the canvas shown |
| SignUp.SignUpPage.ChangeEmail | src/components/landing_page/ui/canvas-reveal-signup.tsx:591-593 | typing an e-mail clears only the e-mail error |
| SignUp.SignUpPage.ChangePassword | src/components/landing_page/ui/canvas-reveal-signup.tsx:611-613 | typing a password clears only the password error |
| SignUp.SignUpPage.TogglePasswordVisible | src/components/landing_page/ui/canvas-reveal-signup.tsx:622 | the eye button flips password visibility |
| SignUp.SignUpPage.SubmitEmail | src/components/landing_page/ui/canvas-reveal-signup.tsx:361-413 | an e-mail error is reported before the password is checked; no request is made unless both pass; the reply's outcome sets the step or the errors |
| SignUp.SignUpPage.ChangeCode | src/components/landing_page/ui/canvas-reveal-signup.tsx:424-446 | a value longer than one character is ignored; otherwise only slot `index` changes; the move to the team step is scheduled only when slot 5 gets a value and all six slots then hold one character |
| SignUp.SignUpPage.Back | src/components/landing_page/ui/canvas-reveal-signup.tsx:454-459 | back returns to the e-mail step with six empty slots and the canvas shown |
| SignUp.SignUpPage.ChangeTeamName | src/components/landing_page/ui/canvas-reveal-signup.tsx:785 | typing the team name changes nothing else |
| SignUp.SignUpPage.SubmitTeam | src/components/landing_page/ui/canvas-reveal-signup.tsx:463-475 | the success step is scheduled only for a non-empty team name |
| SignUp.SignUpPage.FireTimer | src/components/landing_page/ui/canvas-reveal-signup.tsx:440-483 | the scheduled steps move to the team step, move to success and schedule the finish, or hide the canvas and go to "/" |
| Login.ValidatePassword | src/components/landing_page/ui/canvas-reveal-login.tsx:335-342 | "" iff the password passes all four checks, and otherwise the single message "Incorrect email or password" |
| Login.SameRulesAsSignUp | src/components/landing_page/ui/canvas-reveal-login.tsx:335-342 | login accepts exactly the passwords sign-up accepts |
| Login.LoginResult | src/components/landing_page/ui/canvas-reveal-login.tsx:362-391 | an OK reply logs in; 401 gives 'Incorrect email or password.'; every other failure gives 'Login failed. Please try again.' |
| Login.LoginPage.constructor | src/components/landing_page/ui/canvas-reveal-login.tsx:321-326 | the form starts empty, with no errors and the password hidden |
| Login.LoginPage.ChangeEmail | src/components/landing_page/ui/canvas-reveal-login.tsx:464-468 | editing the e-mail clears both the e-mail error and the form error |
| Login.LoginPage.ChangePassword | src/components/landing_page/ui/canvas-reveal-login.tsx:485-488 | editing the password clears only the form error |
| Login.LoginPage.TogglePasswordVisible | src/components/landing_page/ui/canvas-reveal-login.tsx:496 | the eye button flips password visibility |
| Login.LoginPage.Submit | src/components/landing_page/ui/canvas-reveal-login.tsx:344-392 | an e-mail error sets `emailError` and clears `formError`; otherwise a password error sets `formError` and clears `emailError`; only when both pass is a request made, and an OK reply goes to /dashboard |
| Lists.RemoveAll | src/components/dashboard/invite-members-dialog.tsx:60 | the result holds exactly the entries other than the removed value, and is no longer than the input |
| Lists.RemoveAllAbsent | src/components/dashboard/invite-members-dialog.tsx:60 | removing an absent value changes nothing |
| Lists.TailNoDuplicates | src/components/dashboard/invite-members-dialog.tsx:53 | the tail of a list without duplicates has none, and does not contain the head |
| Lists.RemoveAllUnique | src/components/dashboard/invite-members-dialog.tsx:59-61 | in a list without duplicates, removing the entry at i removes exactly that position and keeps the others in order |
| Lists.RemoveAllNoDuplicates | src/components/dashboard/invite-members-dialog.tsx:59-61 | removal keeps a list free of duplicates |
| Lists.AppendNoDuplicates | src/components/dashboard/invite-members-dialog.tsx:53-54 | appending a value the list lacks keeps it free of duplicates |
| Lists.RemoveAllConcat | src/components/dashboard/invite-members-dialog.tsx:60 | removal distributes over concatenation |
| InviteMembers.IsValidEmail | src/components/dashboard/invite-members-dialog.tsx:63-65 | an address is accepted iff it matches `^[^\s@]+@[^\s@]+\.[^\s@]+$` |
| InviteMembers.SentDescriptionPlural | src/components/dashboard/invite-members-dialog.tsx:98 | the toast says "emails" exactly when more than one address was sent |
| InviteMembers.SubmitOutcome | src/components/dashboard/invite-members-dialog.tsx:77-103 | an empty list is refused; otherwise the invitations go to every listed address |
| InviteMembers.SubmitOutcomeAsWritten | src/components/dashboard/invite-members-dialog.tsx:28-33 | as written, the form's schema refuses an empty `emails` value before the handler runs; otherwise the outcome is the handler's |
| InviteMembers.SubmitNeverRunsAsWritten | src/components/dashboard/invite-members-dialog.tsx:150-189 | with a valid address in the list, the as-written submit is still refused, while the corrected one sends one invitation |
| InviteMembers.InviteDialog.constructor | src/components/dashboard/invite-members-dialog.tsx:37-50 | the dialog starts closed, with an empty list, no link and the default message |
| InviteMembers.InviteDialog.SetOpen | src/components/dashboard/invite-members-dialog.tsx:129 | opening or closing through the trigger changes only `open` |
| InviteMembers.InviteDialog.ChangeCurrentEmail | src/components/dashboard/invite-members-dialog.tsx:175 | typing changes only the current input |
| InviteMembers.InviteDialog.ChangeMessage | src/components/dashboard/invite-members-dialog.tsx:190-200 | the message field changes only the message |
| InviteMembers.InviteDialog.AddEmail | src/components/dashboard/invite-members-dialog.tsx:52-57 | a non-empty, new, valid address is appended and the input cleared; otherwise neither the list nor the input changes; the list stays duplicate-free and valid |
| InviteMembers.InviteDialog.KeyDown | src/components/dashboard/invite-members-dialog.tsx:67-75 | Enter, comma and space commit the typed address exactly as `addEmail` does; other keys change nothing |
| InviteMembers.InviteDialog.RemoveEmail | src/components/dashboard/invite-members-dialog.tsx:59-61 | exactly that address leaves the list and the others keep their order |
| InviteMembers.InviteDialog.ResetForm | src/components/dashboard/invite-members-dialog.tsx:102-124 | the form's fields return to their defaults |
| InviteMembers.InviteDialog.Submit | src/components/dashboard/invite-members-dialog.tsx:77-103 | an empty list sets the "emails" error and produces no link; otherwise the link becomes the fixed invite URL, the list empties and the toast names the count |
| InviteMembers.InviteDialog.SubmitAsWritten | src/components/dashboard/invite-members-dialog.tsx:28-33 | the same handler behind the schema check that refuses the never-filled `emails` value |
| InviteMembers.InviteDialog.CloseDialog | src/components/dashboard/invite-members-dialog.tsx:121-126 | closing sets `open` to false and clears the link, the form and the list |
| LandingFileTree.Toggled | src/components/landing_page/ui/file-tree.tsx:44-51 | toggling flips the id's membership and leaves every other id's membership alone |
| LandingFileTree.ToggleTwiceRestores | src/components/landing_page/ui/file-tree.tsx:44-51 | toggling an absent id twice restores the list exactly |
| LandingFileTree.ToggleKeepsNoDuplicates | src/components/landing_page/ui/file-tree.tsx:44-51 | toggling keeps a duplicate-free list duplicate-free |
| LandingFileTree.ItemRows | src/components/landing_page/ui/file-tree.tsx:84-128 | with the folder icon taken from the icon library: an item's first row is itself at its level; it has more rows iff it has children and is expanded; every row is indented `(level+1)*12` px and nested rows sit deeper |
| LandingFileTree.ChildRows | src/components/landing_page/ui/file-tree.tsx:123-127 | siblings give at least one row each, indented by their level |
| LandingFileTree.CollapsedShowsOneRow | src/components/landing_page/ui/file-tree.tsx:123 | a collapsed or childless item shows exactly one row |
| LandingFileTree.FolderIconNeverFinishes | src/components/landing_page/ui/file-tree.tsx:193-223 | as written, the `Folder` component draws itself as its own icon, so its drawing never finishes, however deep the nesting allowed |
| LandingFileTree.ItemRowsAsWritten | src/components/landing_page/ui/file-tree.tsx:81-131 | as written, an item is drawn iff it has no children, and then as the single row of the corrected rendering |
| LandingFileTree.ChildRowsAsWritten | src/components/landing_page/ui/file-tree.tsx:123-128 | as written, a list of siblings is drawn iff none of them has children, and then exactly as in the corrected rendering |
| LandingFileTree.Tree.constructor | src/components/landing_page/ui/file-tree.tsx:41-42 | the tree starts with the given selection and expanded ids |
| LandingFileTree.Tree.ToggleExpandedItem | src/components/landing_page/ui/file-tree.tsx:44-51 | the expanded list becomes its toggle, and the selection is kept |
| LandingFileTree.Tree.ClickItem | src/components/landing_page/ui/file-tree.tsx:89-96 | a click selects only a selectable item and toggles only an item with children |
| LandingFileTree.Tree.ClickFolder | src/components/landing_page/ui/file-tree.tsx:203-206 | with the folder icon fixed, a tree-node or folder click both selects and toggles |
| LandingFileTree.Tree.ClickFile | src/components/landing_page/ui/file-tree.tsx:181 | a file click only selects |
| AvatarGroup.CountShown | src/components/dashboard/avatar-group.tsx:23 | the number of shown avatars is at most the list's length |
| AvatarGroup.FilterShown | src/components/dashboard/avatar-group.tsx:29 | keeps exactly the avatars that are neither inactive nor invited |
| AvatarGroup.FilterShownAppend | src/components/dashboard/avatar-group.tsx:29 | filtering a concatenation filters each part, so shown avatars keep their relative order |
| AvatarGroup.FilterShownPosition | src/components/dashboard/avatar-group.tsx:29 | a shown avatar lands in the filtered list at the index given by the number of shown avatars before it |
| AvatarGroup.Take | src/components/dashboard/avatar-group.tsx:21 | the candidates are the first `maxVisible` avatars |
| AvatarGroup.DrawnAsWritten | src/components/dashboard/avatar-group.tsx:21-29 | as written, the drawn avatars are exactly the shown ones among the first `maxVisible`, so at most `maxVisible` |
| AvatarGroup.Drawn | src/components/dashboard/avatar-group.tsx:21-29 | corrected: the drawn avatars are the first `min(maxVisible, shown)` shown avatars of the list, in list order |
| AvatarGroup.CountShownPrefix | src/components/dashboard/avatar-group.tsx:21-23 | a prefix holds no more shown avatars than the whole list |
| AvatarGroup.DrawnPlusExtraIsShown | src/components/dashboard/avatar-group.tsx:22-23 | corrected: the drawn avatars plus the "+N" bubble count every shown avatar exactly once |
| AvatarGroup.AsWrittenNeverOvercounts | src/components/dashboard/avatar-group.tsx:21-29 | as written, drawn plus "+N" never exceeds the shown avatars |
| AvatarGroup.UndercountExample | src/components/dashboard/avatar-group.tsx:21-29 | an invited avatar ahead of two active ones with `maxVisible` 2: one avatar is drawn and no bubble appears, although two are shown |
| AvatarGroup.ZIndex | src/components/dashboard/avatar-group.tsx:39 | the hovered avatar is at 100; an unhovered one's z-index plus its position is the candidate count, so it is positive for every candidate |
| AvatarGroup.ZIndexOrder | src/components/dashboard/avatar-group.tsx:39 | when no avatar is hovered, earlier avatars sit above later ones and above the bubble |
| AvatarGroup.AltText | src/components/dashboard/avatar-group.tsx:51 | the alt text is the avatar's own when non-empty, and "Avatar {idx+1}" otherwise |
| AvatarGroup.RenderAsWritten | src/components/dashboard/avatar-group.tsx:19-100 | as written, the defaults are 5, 40 and 14; the k-th view draws the k-th as-written avatar: its source or the placeholder, its alt text, z-index over the `maxVisible` candidates, lift and tooltip only when hovered, "• Active" after the label iff active, green dot iff active; the bubble shows `extraCount` iff it is positive |
| AvatarGroup.Render | src/components/dashboard/avatar-group.tsx:19-100 | the same per-view facts for the corrected avatars, with z-index over the drawn ones; drawn avatars plus the bubble count every shown avatar |
| HeroTitle.JoinSnoc | src/components/landing_page/hero-section-new.tsx:45-47 | adding a word to a line appends a space and the word, with no leading space on the first word |
| HeroTitle.SplitTitle | src/components/landing_page/hero-section-new.tsx:41-52 | the word-by-word loop produces exactly the two lines the specification function gives |
| HeroTitle.RowsRejoinTitle | src/components/landing_page/hero-section-new.tsx:41-52 | for two or more words, line 1 + " " + line 2 is the original title |
| HeroTitle.OneWordTitle | src/components/landing_page/hero-section-new.tsx:43-44 | a one-word title gives that word and an empty second line |
| HeroTitle.RowWordCounts | src/components/landing_page/hero-section-new.tsx:43 | line 1 holds the first ceil(n/2) words and line 2 the rest, so line 1 has as many words as line 2 or one more |
| SupportChatbot.FirstMatch | src/components/dashboard/support-chatbot.tsx:144-186 | the index found is that of a matching rule with no match before it; none is found only when no rule matches |
| SupportChatbot.Respond | src/components/dashboard/support-chatbot.tsx:141-189 | the reply is that of the first rule matching the lower-cased query, or the fallback when none matches |
| SupportChatbot.RespondFromFirstMatch | src/components/dashboard/support-chatbot.tsx:141-189 | when some rule matches, the reply is that of this rule or of an earlier one |
| SupportChatbot.KeyNeverGetsShortcut | src/components/dashboard/support-chatbot.tsx:164-178 | as written, a query holding "key" never gets the shortcut reply |
| SupportChatbot.GenerateResponseAsWritten | src/components/dashboard/support-chatbot.tsx:141-189 | `generateResponse` as written (the rules in source order): any query holding "key", and so every keyboard question, misses the shortcut reply |
| SupportChatbot.KeyboardNeverGetsApiKey | src/components/dashboard/support-chatbot.tsx:164-178 | with the rules reordered, a query mentioning "keyboard" never gets the API-key reply |
| SupportChatbot.GenerateResponse | src/components/dashboard/support-chatbot.tsx:141-189 | corrected: keyboard/shortcut tried before api/key, so a query mentioning "keyboard" never gets the API-key reply |
| SupportChatbot.RespondIgnoresCase | src/components/dashboard/support-chatbot.tsx:142 | a query and its lower-cased form get the same reply |
| SupportChatbot.HiInsideWord | src/components/dashboard/support-chatbot.tsx:144 | "hi" matches inside a word: "this" gets the greeting |
| SupportChatbot.ContainsPrefix | src/components/dashboard/support-chatbot.tsx:164-176 | a text containing "keyboard" contains "key" |
| SupportChatbot.KeyboardGetsApiReply | src/components/dashboard/support-chatbot.tsx:164-178 | a query that passes the first five rules and mentions "keyboard" gets the API-key reply as written, and the shortcut reply with the rules reordered |
| SupportChatbot.MissingChar | src/components/dashboard/support-chatbot.tsx:144-160 | a text lacking one of a keyword's characters does not contain the keyword |
| SupportChatbot.LowerKeyboard | src/components/dashboard/support-chatbot.tsx:142 | "keyboard" is already lower case |
| SupportChatbot.KeyboardMissesGreeting | src/components/dashboard/support-chatbot.tsx:144 | "keyboard" contains neither "hello" nor "hi" |
| SupportChatbot.KeyboardPassesFirstRules | src/components/dashboard/support-chatbot.tsx:144-162 | "keyboard" matches none of the first five rules |
| SupportChatbot.KeyboardExample | src/components/dashboard/support-chatbot.tsx:164-178 | the keyword "keyboard" alone gets the API-key reply as written and the shortcut reply once reordered |
| SupportChatbot.ContainsAcrossSpace | src/components/dashboard/support-chatbot.tsx:144-186 | a space-free keyword found in two words joined by a space lies in one of them |
| SupportChatbot.GreetingMissesFiveWords | src/components/dashboard/support-chatbot.tsx:144 | five space-joined words, each lacking 'h' or lacking both 'e' and 'i', hold neither "hello" nor "hi" |
| SupportChatbot.LowerKeyboardQuestion | src/components/dashboard/support-chatbot.tsx:50 | the fifth suggested question is "What keyboard shortcuts are available?", and lower-casing it changes only the capital W |
| SupportChatbot.KeyboardQuestionWords | src/components/dashboard/support-chatbot.tsx:50 | the lower-cased question is five words joined by single spaces |
| SupportChatbot.KeyboardQuestionLacks | src/components/dashboard/support-chatbot.tsx:50 | the lower-cased question holds no 'f', 'm' or 'n' |
| SupportChatbot.GreetingMissed | src/components/dashboard/support-chatbot.tsx:144 | a query holding neither "hello" nor "hi" misses the greeting rule |
| SupportChatbot.CreateDocumentMissed | src/components/dashboard/support-chatbot.tsx:148 | a query without 'm' cannot contain "document" and misses that rule |
| SupportChatbot.FolderMissed | src/components/dashboard/support-chatbot.tsx:152 | a query without 'f' cannot contain "folder" and misses that rule |
| SupportChatbot.InviteMissed | src/components/dashboard/support-chatbot.tsx:156 | a query without 'm' or 'n' contains none of "invite", "team", "member" |
| SupportChatbot.SettingsMissed | src/components/dashboard/support-chatbot.tsx:160 | a query without 'n' contains neither "settings" nor "account" |
| SupportChatbot.NextRulesMissed | src/components/dashboard/support-chatbot.tsx:148-162 | a query without 'f', 'm' or 'n' misses the second to fifth rules |
| SupportChatbot.KeyboardQuestionMentionsKeyboard | src/components/dashboard/support-chatbot.tsx:176 | the lower-cased question contains "keyboard" |
| SupportChatbot.KeyboardQuestionMissesGreeting | src/components/dashboard/support-chatbot.tsx:144 | the lower-cased question contains neither "hello" nor "hi", although "what" and "shortcuts" hold an 'h' |
| SupportChatbot.KeyboardQuestionPassesFirstRules | src/components/dashboard/support-chatbot.tsx:144-176 | the lower-cased question mentions "keyboard" and matches none of the first five rules |
| SupportChatbot.KeyboardQuestionExample | src/components/dashboard/support-chatbot.tsx:141-178 | the suggested question "What keyboard shortcuts are available?" gets the API-key reply as written and the shortcut reply once reordered |
| SupportChatbot.CountRoleAppend | src/components/dashboard/support-chatbot.tsx:119-133 | appending a message adds one to its role's count only |
| SupportChatbot.ChatWindow.constructor | src/components/dashboard/support-chatbot.tsx:28-39 | the chat starts closed, not minimised, with exactly the assistant's welcome message |
| SupportChatbot.ChatWindow.ToggleChat | src/components/dashboard/support-chatbot.tsx:54-57 | toggling flips open and always un-minimises |
| SupportChatbot.ChatWindow.ToggleMinimize | src/components/dashboard/support-chatbot.tsx:59-62 | minimise flips minimised only |
| SupportChatbot.ChatWindow.Close | src/components/dashboard/support-chatbot.tsx:64-67 | close sets open to false only |
| SupportChatbot.ChatWindow.ChangeInput | src/components/dashboard/support-chatbot.tsx:38 | typing changes only the input |
| SupportChatbot.ChatWindow.PickSuggestedQuestion | src/components/dashboard/support-chatbot.tsx:237-240 | picking a suggestion only sets the input; no message is sent |
| SupportChatbot.ChatWindow.Submit | src/components/dashboard/support-chatbot.tsx:108-138 | blank input changes nothing; otherwise one user message with the untrimmed input is appended, the input clears, typing starts and one reply is scheduled; user and assistant messages stay balanced |
| SupportChatbot.ChatWindow.AnswerPending | src/components/dashboard/support-chatbot.tsx:124-137 | answering an awaited input appends exactly one assistant message with the given text, drops that input from the awaited ones, stops typing and changes nothing else; user and assistant messages stay balanced |
| SupportChatbot.ChatWindow.DeliverReplyAsWritten | src/components/dashboard/support-chatbot.tsx:124-137 | the timer callback as written appends the answer of the rules in their written order to the submitted text |
| SupportChatbot.ChatWindow.DeliverReply | src/components/dashboard/support-chatbot.tsx:124-137 | the same callback with the rules reordered: the appended answer is the corrected router's |
| Sidebar.NavItems | src/components/dashboard/sidebar.tsx:194-236 | Overview, Editor and Settings are highlighted exactly when the path equals their link; Documentation and Support never are |
| Sidebar.AtMostOneActive | src/components/dashboard/sidebar.tsx:194-196 | at most one navigation entry is highlighted |
| Sidebar.SavedName | src/components/dashboard/sidebar.tsx:90-97 | a save yields the trimmed value when it is not blank and the old name otherwise, and the result is always a clean name |
| Sidebar.TrimmedIsClean | src/components/dashboard/sidebar.tsx:92-93 | trimming an input of at most 20 characters is empty iff the input is blank, and otherwise gives a clean name |
| Sidebar.SaveUnchangedKeepsName | src/components/dashboard/sidebar.tsx:85-97 | saving the value editing started with keeps the name |
| Sidebar.TeamNameEditor.constructor | src/components/dashboard/sidebar.tsx:71-75 | the name starts as "TEAM", not editing, with that name in the edit field, and the dashboard shown |
| Sidebar.TeamNameEditor.EditStart | src/components/dashboard/sidebar.tsx:85-88 | with the click kept from the link: editing starts with the edit field holding the current name, and the page stays |
| Sidebar.TeamNameEditor.ChangeEditValue | src/components/dashboard/sidebar.tsx:159-163 | typing, up to 20 characters, changes only the edit field |
| Sidebar.TeamNameEditor.EditSave | src/components/dashboard/sidebar.tsx:90-97 | a save stores the trimmed value unless it is blank, editing always ends, and the page stays |
| Sidebar.TeamNameEditor.EditCancel | src/components/dashboard/sidebar.tsx:99-103 | cancel ends editing without changing the name or the page |
| Sidebar.TeamNameEditor.KeyDown | src/components/dashboard/sidebar.tsx:105-111 | Enter saves, Escape cancels, any other key does nothing |
| Sidebar.TeamNameEditor.Blur | src/components/dashboard/sidebar.tsx:161 | leaving the field schedules one cancel |
| Sidebar.TeamNameEditor.FireBlurTimer | src/components/dashboard/sidebar.tsx:161 | a scheduled cancel ends editing and keeps the name |
| Sidebar.TeamNameEditor.ClickNameAsWritten | src/components/dashboard/sidebar.tsx:148-189 | as written, a click on the name starts editing and also follows the logo's link to "/" |
| Sidebar.TeamNameEditor.ClickSaveAsWritten | src/components/dashboard/sidebar.tsx:148-189 | as written, a click on the check mark saves as `EditSave` does and also follows the logo's link to "/" |
| Sidebar.TeamNameEditor.ClickCancelAsWritten | src/components/dashboard/sidebar.tsx:148-189 | as written, a click on the X cancels as `EditCancel` does and also follows the logo's link to "/" |
| Dashboard.CheckAvailability | src/components/dashboard/dashboard.tsx:72-76 | "taken" is never available; any other name is available iff it is longer than three characters |
| Dashboard.ShortNamesUnavailable | src/components/dashboard/dashboard.tsx:72-76 | names of three characters or fewer are never available |
| Dashboard.InputWidth | src/components/dashboard/dashboard.tsx:128 | the width the `style` prop asks for before measurement is the larger of 8 px per character and 40 px |
| Dashboard.MeasuredText | src/components/dashboard/dashboard.tsx:60 | the measured text is never empty: the value itself, or "team" when the value is empty |
| Dashboard.AdjustedWidth | src/components/dashboard/dashboard.tsx:51-68 | the width set after measuring is the larger of the text width plus 10 px and 40 px |
| Dashboard.ShortNamesGetMinWidth | src/components/dashboard/dashboard.tsx:128 | exactly the names of up to five characters get the 40 px minimum |
| Dashboard.Greeting | src/components/dashboard/dashboard.tsx:145-148 | "Good evening," iff the hour is 12 or later, and "Good morning," otherwise |
| Dashboard.UrlBadge.ShownIcon | src/components/dashboard/dashboard.tsx:109-117 | an icon shows iff editing and availability is known; it is the check mark iff the name is available |
| Dashboard.UrlBadge.constructor | src/components/dashboard/dashboard.tsx:36-38 | the badge starts on "team", not editing, with availability unknown |
| Dashboard.UrlBadge.Click | src/components/dashboard/dashboard.tsx:78-107 | a click enters editing; while already editing it changes nothing |
| Dashboard.UrlBadge.Change | src/components/dashboard/dashboard.tsx:87-94 | each change sets the name to the typed value and availability to its check |
| Dashboard.UrlBadge.Blur | src/components/dashboard/dashboard.tsx:82-85 | blur ends editing and forgets availability |
| Dashboard.UrlBadge.KeyDown | src/components/dashboard/dashboard.tsx:96-101 | Enter ends editing and forgets availability; other keys do nothing |
| FolderTree.RenderItem | src/components/dashboard/file-tree.tsx:145-162 | an element is drawn as a folder iff it has a children list, even an empty one; its children are drawn in order; reading the view back gives the element |
| FolderTree.RenderItems | src/components/dashboard/file-tree.tsx:126-152 | a list is drawn item by item, in order, with nothing lost |
| FolderTree.EmptyFolderIsFolder | src/components/dashboard/file-tree.tsx:146-155 | a folder with an empty children list is still drawn as a folder |
| FolderTree.NewFolderId | src/components/dashboard/file-tree.tsx:64 | a new folder's id is "folder-" followed by the clock reading |
| FolderTree.FolderPanel.constructor | src/components/dashboard/file-tree.tsx:56-59 | the panel starts on the sample structure, with an empty name and the form closed |
| FolderTree.FolderPanel.StartAdding | src/components/dashboard/file-tree.tsx:102 | the plus button opens the form and changes nothing else |
| FolderTree.FolderPanel.ChangeNewFolderName | src/components/dashboard/file-tree.tsx:83 | typing changes only the new folder's name |
| FolderTree.FolderPanel.ChangeSearchQuery | src/components/dashboard/file-tree.tsx:113 | typing a search changes only the search text |
| FolderTree.FolderPanel.AddFolder | src/components/dashboard/file-tree.tsx:61-73 | a name that is not blank adds one empty folder at the end, named exactly as typed, then clears the name and closes the form; a blank name changes nothing; only folders sit at the top level |
| FolderTree.FolderPanel.CancelAdding | src/components/dashboard/file-tree.tsx:88-96 | cancel closes the form without touching the structure |
| FolderTree.FolderPanel.KeyDown | src/components/dashboard/file-tree.tsx:86-89 | Enter adds as the button does, Escape cancels, and the structure only ever grows at its end |
| FolderTree.FolderPanel.Rendered | src/components/dashboard/file-tree.tsx:126-128 | every top-level element is drawn as a folder, one per element |
| ProfileImageUpload.Rejection | src/components/dashboard/profile-image-upload.tsx:38-49 | a type outside jpeg/png/gif/webp gives the type error, checked first; a size above 5*1024*1024 gives the size error; anything else is accepted |
| ProfileImageUpload.SizeLimitInclusive | src/components/dashboard/profile-image-upload.tsx:45-46 | exactly 5 MiB is accepted, one byte more is refused |
| ProfileImageUpload.InitialImage | src/components/dashboard/profile-image-upload.tsx:19 | a missing or empty initial image counts as none |
| ProfileImageUpload.ImageUpload.ButtonLabel | src/components/dashboard/profile-image-upload.tsx:163 | "Change Photo" iff a picture is shown, "Upload Photo" otherwise |
| ProfileImageUpload.ImageUpload.constructor | src/components/dashboard/profile-image-upload.tsx:19-22 | the upload starts on the initial picture, with nothing in progress and no error |
| ProfileImageUpload.ImageUpload.HandleFile | src/components/dashboard/profile-image-upload.tsx:33-72 | the previous error is cleared; a refused file leaves only its error; an accepted one starts uploading its data URL |
| ProfileImageUpload.ImageUpload.ChangeFile | src/components/dashboard/profile-image-upload.tsx:26-31 | an empty selection does nothing; a chosen file is handled as above |
| ProfileImageUpload.ImageUpload.DragOver | src/components/dashboard/profile-image-upload.tsx:74-77 | drag-over sets the dragging flag only |
| ProfileImageUpload.ImageUpload.DragLeave | src/components/dashboard/profile-image-upload.tsx:79-81 | drag-leave clears the dragging flag only |
| ProfileImageUpload.ImageUpload.Drop | src/components/dashboard/profile-image-upload.tsx:83-91 | a drop clears dragging; a dropped file is handled, a drop without one does nothing more |
| ProfileImageUpload.ImageUpload.CompleteUpload | src/components/dashboard/profile-image-upload.tsx:56-69 | on completion the picture becomes that upload's URL, the callback receives the same value, uploading ends and a toast follows |
| ProfileImageUpload.ImageUpload.RemoveImage | src/components/dashboard/profile-image-upload.tsx:97-106 | removing drops the picture, the callback receives null, and the button reads "Upload Photo" |
| InfoCard.MountCard | src/components/dashboard/ui/info-card.tsx:92-102 | "forever" without a storage key throws; otherwise the card starts dismissed only in a browser, only for "forever", and only when storage holds "dismissed" under the key |
| InfoCard.OnceStartsVisible | src/components/dashboard/ui/info-card.tsx:99-100 | a "once" card always starts undismissed |
| InfoCard.DismissForeverPersists | src/components/dashboard/ui/info-card.tsx:99-109 | after a "forever" dismissal, the next mount in a browser starts dismissed |
| InfoCard.DisplayMedia | src/components/dashboard/ui/info-card.tsx:247-256 | the drawn media are the first three at most, in order, with a missing type read as image |
| InfoCard.Sources | src/components/dashboard/ui/info-card.tsx:240-242 | the set of drawn sources holds exactly the sources of the drawn media, and has no more elements than there are drawn media |
| InfoCard.DistinctSourcesCount | src/components/dashboard/ui/info-card.tsx:242 | drawn media with distinct sources have as many sources as media |
| InfoCard.FullSubsetIsEqual | src/components/dashboard/ui/info-card.tsx:242 | a subset as large as its superset is all of it |
| InfoCard.SubsetCard | src/components/dashboard/ui/info-card.tsx:242 | a subset is no larger than its superset |
| InfoCard.ChecksAgreeOnDistinctSources | src/components/dashboard/ui/info-card.tsx:240-245 | with distinct sources, the as-written size check passes exactly when every drawn source has loaded |
| InfoCard.DuplicateSourceNeverLoadsAsWritten | src/components/dashboard/ui/info-card.tsx:240-245 | two drawn media with one source never pass the as-written check, while the corrected check passes once that source loads |
| InfoCard.TranslateY | src/components/dashboard/ui/info-card.tsx:291-295 | 0 when not hovered; -5 for a single item; otherwise -10 for index 0, -5 for index 1 and 0 beyond |
| InfoCard.FrontLiftedMost | src/components/dashboard/ui/info-card.tsx:291-295 | in a stack of several, earlier items are lifted at least as far as later ones, between 0 and 10 px |
| InfoCard.Card.Opacity | src/components/dashboard/ui/info-card.tsx:136 | the body is opaque exactly when the media have loaded |
| InfoCard.Card.constructor | src/components/dashboard/ui/info-card.tsx:97-102 | a mount that does not throw starts unhovered, dismissed as the mount rule says, and waits for media only when shown with some |
| InfoCard.Card.MouseEnter | src/components/dashboard/ui/info-card.tsx:162 | entering sets hovered only |
| InfoCard.Card.MouseLeave | src/components/dashboard/ui/info-card.tsx:163 | leaving clears hovered only |
| InfoCard.Card.Dismiss | src/components/dashboard/ui/info-card.tsx:104-130 | dismissal hides the body; a "forever" card writes "dismissed" under its key, a "once" card leaves storage alone |
| InfoCard.Card.SetMedia | src/components/dashboard/ui/info-card.tsx:258-265 | when the media count changes, a non-empty list restarts loading with an empty loaded set and an empty list counts as loaded; an unchanged count changes nothing |
| InfoCard.Card.HandleMediaLoadAsWritten | src/components/dashboard/ui/info-card.tsx:240-245 | a load adds its source to the set; as written, the card becomes opaque when the set's size equals the number of drawn media |
| InfoCard.Card.HandleMediaLoad | src/components/dashboard/ui/info-card.tsx:240-245 | a load adds its source to the set; the card becomes opaque once every drawn source has loaded |

## Left out

- Markdown rendering is done by the Markdoc library (`src/app/edit/page.tsx`). Markdoc is not part of this model.
- Network calls are not modelled: registration, login and logout requests. A server reply is an input of type `Option`, where `None` stands for a request that threw.
- Decoding the session cookie (base64 and JSON) is not modelled. The decoded `exp`, or the failure to decode, is an input. So is the clock.
- Unicode case mapping is not modelled: `toLowerCase`/`toUpperCase` map ASCII letters only. `localeCompare` is modelled as code-point order.
- TeamMembersList.Sort: the source comparator returns 1 both ways for an invited and an inactive member of the same role, so it is not a consistent order and the order the JavaScript sort leaves them in is unspecified. The model treats invited and inactive alike. It orders members by role rank, then active first, then name, and `Before` and `Sorted` include that name order.
- Lengths are counted in code points, not in JavaScript's UTF-16 units. A character outside the Basic Multilingual Plane counts once here and twice in the source. This affects SignUp.ValidatePassword, Login.ValidatePassword, SignUp.SignUpPage.ChangeCode and SignUp.CodeComplete, Dashboard.CheckAvailability, Dashboard.InputWidth, the 20-character limit of Sidebar.TeamNameEditor.ChangeEditValue, and TeamMemberCard.Initials.
- Timers are explicit steps, and their delays are not modelled: the chat reply, the sign-up steps, the sidebar's blur cancel and the upload completion. Pending steps may run in any order.
- The upload's `FileReader` load and its 1.5 s delay are one pending completion.
- Toast text is only logged where a contract speaks of it. Focus handling, scrolling, the clipboard copy and its "copied" flag are not modelled.
- The avatar group's hover tooltip (`AvatarGroup.DrawsAvatar`) is modelled by its label and by whether "• Active" follows it. Its position and its spring animation are not modelled.
- Animations are not modelled: the shaders, the springs, and the media stack's rotation, horizontal shift and scale, which are non-integer.
- The chatbot's message ids and timestamps, and the invite dialog's transient `isSubmitting` flag, are not modelled.
- SignUp.ColorSlots requires a non-empty colour list. The source reads `colors[0]` and always passes at least one colour.
- SignUp.ReverseRoundTrip assumes the speed text carries no "u". It is a decimal number written with `toFixed(1)`.
- SignUp.RegisterResult does not model an error body whose error arrays are empty.
- AvatarGroup.Render, AvatarGroup.RenderAsWritten, AvatarGroup.Take, AvatarGroup.DrawnAsWritten and AvatarGroup.Drawn take `maxVisible` as a natural number. A negative `maxVisible` is not modelled.
- LandingFileTree: a missing `children` list and an empty one are modelled alike, because that tree treats them alike. The dashboard tree distinguishes them, so `FolderTree.Element` has separate `Folder` and `File` constructors.
- FolderTree.FolderPanel.ChangeSearchQuery: the search text is stored, but nothing filters on it, exactly as in the source.
- The dashboard tree's collapse button and its chevron are not modelled, and neither is its initial expanded id.
- Sidebar: as written, a click inside the name's input also follows the logo's link. The model has no such click, because it changes no editor state besides `navigatedTo`.
- Sidebar: the `isSaving` flag is set and cleared inside one handler, so every other handler sees it false. The model keeps the field with that invariant.
- ProfileImageUpload.ImageUpload.ChangeFile requires that no upload is in progress, because the file input is disabled then. A drop is not disabled, and `Drop` has no such requirement.
- The dashboard's activity table and other fixed page text are not modelled.
- Dashboard.AdjustedWidth takes the rendered width of the measured text as an input, because measuring text in the page's font is not modelled. `Dashboard.UrlBadge` does not keep the input's width.

## Findings

| source | as written | input that shows it | evidently intended | confidence | as-written member | corrected member |
|---|---|---|---|---|---|---|
| src/components/heading.tsx:20-21 | the default branch builds a `div` but does not return it, so levels outside 1-6 render nothing | level 7 (`Heading.OutOfRangeLevelRendersNothing`) | return the default `div` | high, not executed | Heading.HeadingAsWritten | Heading.Heading |
| src/components/dashboard/support-chatbot.tsx:164-178 | the api/key rule comes before keyboard/shortcut, and "keyboard" contains "key" | the suggested question "What keyboard shortcuts are available?" gets the API-key answer (`SupportChatbot.KeyboardQuestionExample`, delivered by `SupportChatbot.ChatWindow.DeliverReplyAsWritten`) | keyboard questions get the shortcut answer | high, not executed | SupportChatbot.GenerateResponseAsWritten | SupportChatbot.GenerateResponse |
| src/components/dashboard/invite-members-dialog.tsx:150-189 | the schema requires a non-empty `emails` value, but that field is never attached to an input and stays "", so `onSubmit` never runs | list ["ana@team.io"] is still refused (`InviteMembers.SubmitNeverRunsAsWritten`) | the handler runs and checks the list itself | medium, not executed | InviteMembers.SubmitOutcomeAsWritten | InviteMembers.SubmitOutcome |
| src/components/dashboard/avatar-group.tsx:21-29 | avatars are cut to `maxVisible` before hidden ones are filtered out, but `extraCount` counts over the whole list | an invited avatar, then two active ones, with `maxVisible` 2: one drawn and no "+N" (`AvatarGroup.UndercountExample`) | drawn plus "+N" equals the number of shown avatars | medium, not executed | AvatarGroup.DrawnAsWritten | AvatarGroup.Drawn |
| src/components/dashboard/ui/info-card.tsx:240-245 | "all loaded" compares the size of the set of loaded sources with the number of drawn media | two drawn media with the same `src`: the set never grows past 1 and the card stays transparent (`InfoCard.DuplicateSourceNeverLoadsAsWritten`) | the card shows once every drawn source has loaded | medium, not executed | InfoCard.Card.HandleMediaLoadAsWritten | InfoCard.Card.HandleMediaLoad |
| src/components/landing_page/ui/file-tree.tsx:193-223 | line 4 imports no `Folder` icon, so the `Folder` drawn as an icon at lines 118, 159 and 216 is this file's own `Folder` component, which draws itself again: no item with children, no tree node and no folder ever finishes drawing | any element with a child (`LandingFileTree.FolderIconNeverFinishes`) | import the `Folder` icon beside `ChevronDown`, `ChevronRight` and `FileIcon` | high, not executed | LandingFileTree.ItemRowsAsWritten | LandingFileTree.ItemRows |
| src/components/dashboard/sidebar.tsx:148-189 | the team name sits inside the logo's `<Link href="/">` and its click handler does not stop the event, so clicking the name to edit it also leaves the dashboard | a click on "TEAM" (`Sidebar.TeamNameEditor.ClickNameAsWritten`) | the name's click starts editing and the page stays | high, not executed | Sidebar.TeamNameEditor.ClickNameAsWritten | Sidebar.TeamNameEditor.EditStart |
| src/components/dashboard/sidebar.tsx:148-189 | the check-mark button sits inside the same link, so saving a new name with it also leaves the dashboard | a click on the check mark (`Sidebar.TeamNameEditor.ClickSaveAsWritten`) | the save happens and the page stays | high, not executed | Sidebar.TeamNameEditor.ClickSaveAsWritten | Sidebar.TeamNameEditor.EditSave |
| src/components/dashboard/sidebar.tsx:148-189 | the X button sits inside the same link, so cancelling with it also leaves the dashboard | a click on the X (`Sidebar.TeamNameEditor.ClickCancelAsWritten`) | the cancel happens and the page stays | high, not executed | Sidebar.TeamNameEditor.ClickCancelAsWritten | Sidebar.TeamNameEditor.EditCancel |

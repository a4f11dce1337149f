/**
 * The dashboard's support chat: the keyword router that picks a canned
 * reply, and the chat window's state (open, minimised, the message list,
 * the input, the typing indicator and replies still to arrive).
 *
 * The router is a list of rules tried in order; a rule matches when each
 * of its keyword groups has a keyword that occurs in the lower-cased query.
 * As written (`RulesAsWritten`), the api/key rule comes before the
 * keyboard/shortcut rule, and "keyboard" contains "key", so questions about
 * the keyboard get the API-key reply (`KeyboardGetsApiReply`). `Rules`
 * tries keyboard/shortcut first. The chat window delivers replies both
 * ways: `DeliverReplyAsWritten` routes with `RulesAsWritten`, `DeliverReply`
 * with `Rules`.
 *
 * The reply arrives after a random delay; each pending reply is delivered
 * by an explicit later step, in any order.
 */
module SupportChatbot {
  import opened Wrappers
  import Text

  const Welcome := "Hi there! \U{1F44B} I'm your documentation assistant. How can I help you today?"

  const SuggestedQuestions := [
    "How do I create a new document?",
    "How do I invite team members?",
    "Where can I find my account settings?",
    "How do I manage API keys?",
    "What keyboard shortcuts are available?",
    "How can I export my documentation?"
  ]

  const GreetingReply := "Hello! How can I assist you with your documentation today?"
  const CreateDocumentReply := "To create a new document, go to the Editor page and click the 'Create Document' button in the top right corner."
  const FolderReply := "You can create and manage folders in the Editor page. Look for the folder structure on the left side and use the '+' button to create new folders."
  const InviteReply := "You can invite team members by clicking on 'Invite Members' in the sidebar. You can send email invitations or share an invite link."
  const SettingsReply := "To access your account settings, navigate to the Settings page where you can update your profile, manage API keys, and customize your preferences."
  const ApiKeyReply := "API keys can be managed in the Settings page under the 'API Keys' tab. You can generate new keys, rotate existing ones, or revoke them as needed."
  const HelpReply := "I'm here to help! You can also reach our support team via email at support@team.com or by phone at +1 (555) 123-4567."
  const ThanksReply := "You're welcome! Is there anything else I can help you with?"
  const ShortcutReply := "We support several keyboard shortcuts: Ctrl+S to save, Ctrl+F to search, Ctrl+N for a new document, and Ctrl+/ to open the command palette."
  const ExportReply := "You can export your documentation by going to the document settings menu and selecting 'Export'. We support PDF, HTML, and Markdown formats."
  const MarkdownReply := "Yes, our editor fully supports Markdown syntax. You can use headings, lists, code blocks, tables, and other Markdown formatting in your documents."
  const FallbackReply := "I'm not sure I understand. Could you provide more details or rephrase your question? You can ask about creating documents, managing folders, inviting team members, or account settings."

  /** A rule fires when every group has a keyword occurring in the query. */
  datatype Rule = Rule(groups: seq<seq<string>>, reply: string)

  predicate AnyOccurs(query: string, keywords: seq<string>) {
    exists k :: k in keywords && Text.Contains(query, k)
  }

  predicate RuleMatches(rule: Rule, query: string) {
    forall g :: g in rule.groups ==> AnyOccurs(query, g)
  }

  const GreetingRule := Rule([["hello", "hi"]], GreetingReply)
  const CreateDocumentRule := Rule([["document"], ["create", "new"]], CreateDocumentReply)
  const FolderRule := Rule([["folder"]], FolderReply)
  const InviteRule := Rule([["invite", "team", "member"]], InviteReply)
  const SettingsRule := Rule([["settings", "account"]], SettingsReply)
  const ApiKeyRule := Rule([["api", "key"]], ApiKeyReply)
  const HelpRule := Rule([["help", "support"]], HelpReply)
  const ThanksRule := Rule([["thank"]], ThanksReply)
  const ShortcutRule := Rule([["keyboard", "shortcut"]], ShortcutReply)
  const ExportRule := Rule([["export"]], ExportReply)
  const MarkdownRule := Rule([["markdown"]], MarkdownReply)

  /** The rules in the order the router tries them as written. */
  const RulesAsWritten := [GreetingRule, CreateDocumentRule, FolderRule, InviteRule, SettingsRule,
                           ApiKeyRule, HelpRule, ThanksRule, ShortcutRule, ExportRule, MarkdownRule]

  /** The corrected order: keyboard/shortcut before api/key. */
  const Rules := [GreetingRule, CreateDocumentRule, FolderRule, InviteRule, SettingsRule,
                  ShortcutRule, ApiKeyRule, HelpRule, ThanksRule, ExportRule, MarkdownRule]

  /** The first rule that matches, if any. */
  function FirstMatch(rules: seq<Rule>, query: string): (r: Option<nat>)
    ensures r.Some? ==> r.value < |rules| && RuleMatches(rules[r.value], query)
    ensures r.Some? ==> forall j :: 0 <= j < r.value ==> !RuleMatches(rules[j], query)
    ensures r.None? ==> forall j :: 0 <= j < |rules| ==> !RuleMatches(rules[j], query)
  {
    if rules == [] then None
    else if RuleMatches(rules[0], query) then Some(0)
    else
      var r := FirstMatch(rules[1..], query);
      if r.Some? then
        assert forall j :: 1 <= j <= r.value ==> rules[j] == rules[1..][j - 1];
        Some(r.value + 1)
      else
        assert forall j :: 1 <= j < |rules| ==> rules[j] == rules[1..][j - 1];
        None
  }

  /** The reply of the first matching rule of the lower-cased query, or the
      fallback when none matches. */
  function Respond(rules: seq<Rule>, query: string): (reply: string)
    ensures var q := Text.ToLower(query);
      (exists i :: 0 <= i < |rules| && RuleMatches(rules[i], q) && reply == rules[i].reply &&
         forall j :: 0 <= j < i ==> !RuleMatches(rules[j], q)) ||
      (reply == FallbackReply && forall j :: 0 <= j < |rules| ==> !RuleMatches(rules[j], q))
  {
    match FirstMatch(rules, Text.ToLower(query))
    case Some(i) => rules[i].reply
    case None => FallbackReply
  }

  /** When rule `k` matches, the reply is that of rule `k` or of an earlier one. */
  lemma RespondFromFirstMatch(rules: seq<Rule>, query: string, k: nat)
    requires k < |rules| && RuleMatches(rules[k], Text.ToLower(query))
    ensures exists i :: 0 <= i <= k && Respond(rules, query) == rules[i].reply
  {
    var r := FirstMatch(rules, Text.ToLower(query));
    assert r.Some? && r.value <= k;
    assert Respond(rules, query) == rules[r.value].reply;
  }

  lemma ApiKeyRuleMatches(q: string)
    requires Text.Contains(q, "key")
    ensures RuleMatches(RulesAsWritten[5], q)
  {
    assert RulesAsWritten[5].groups == [["api", "key"]];
    assert "key" in ["api", "key"];
  }

  lemma ShortcutRuleMatches(q: string)
    requires Text.Contains(q, "keyboard")
    ensures RuleMatches(Rules[5], q)
  {
    assert Rules[5].groups == [["keyboard", "shortcut"]];
    assert "keyboard" in ["keyboard", "shortcut"];
  }

  /** The first six rules as written all answer something else than the shortcut reply. */
  lemma EarlyRepliesAsWritten()
    ensures forall i :: 0 <= i <= 5 ==> RulesAsWritten[i].reply != ShortcutReply
  {
  }

  /** The first six corrected rules all answer something else than the API-key reply. */
  lemma EarlyReplies()
    ensures forall i :: 0 <= i <= 5 ==> Rules[i].reply != ApiKeyReply
  {
  }

  /** `generateResponse` as written. Any query holding "key", and so every
      question about the keyboard, is caught by the api/key rule or an
      earlier one and never gets the shortcut reply. */
  function GenerateResponseAsWritten(query: string): (r: string)
    ensures Text.Contains(Text.ToLower(query), "key") ==> r != ShortcutReply
  {
    KeyNeverGetsShortcut(query);
    Respond(RulesAsWritten, query)
  }

  lemma KeyNeverGetsShortcut(query: string)
    ensures Text.Contains(Text.ToLower(query), "key") ==> Respond(RulesAsWritten, query) != ShortcutReply
  {
    if Text.Contains(Text.ToLower(query), "key") {
      ApiKeyRuleMatches(Text.ToLower(query));
      RespondFromFirstMatch(RulesAsWritten, query, 5);
      EarlyRepliesAsWritten();
    }
  }

  /** `generateResponse` with the keyboard rule ahead of the api/key rule: a
      query mentioning "keyboard" never gets the API-key reply. */
  function GenerateResponse(query: string): (r: string)
    ensures Text.Contains(Text.ToLower(query), "keyboard") ==> r != ApiKeyReply
  {
    KeyboardNeverGetsApiKey(query);
    Respond(Rules, query)
  }

  lemma KeyboardNeverGetsApiKey(query: string)
    ensures Text.Contains(Text.ToLower(query), "keyboard") ==> Respond(Rules, query) != ApiKeyReply
  {
    if Text.Contains(Text.ToLower(query), "keyboard") {
      ShortcutRuleMatches(Text.ToLower(query));
      RespondFromFirstMatch(Rules, query, 5);
      EarlyReplies();
    }
  }

  /** The router ignores case: a query and its lower-cased form get the same reply. */
  lemma RespondIgnoresCase(rules: seq<Rule>, query: string)
    ensures Respond(rules, query) == Respond(rules, Text.ToLower(query))
  {
    var q := Text.ToLower(query);
    assert Text.ToLower(q) == q by {
      assert forall k :: 0 <= k < |q| ==> Text.ToLower(q)[k] == q[k];
    }
  }

  /** "hi" matches inside any word: "this" gets the greeting. */
  lemma HiInsideWord()
    ensures GenerateResponse("this") == GreetingReply
    ensures GenerateResponseAsWritten("this") == GreetingReply
  {
    var q := "this";
    assert Text.ToLower(q) == q by {
      assert forall k :: 0 <= k < |q| ==> Text.ToLower(q)[k] == q[k];
    }
    assert Text.OccursAt(q, "hi", 1);
    assert RuleMatches(GreetingRule, q) by {
      assert "hi" in ["hello", "hi"];
    }
    assert Rules[0] == GreetingRule && RulesAsWritten[0] == GreetingRule;
  }

  /** A string containing `t` contains every prefix of `t`. */
  lemma ContainsPrefix(s: string, t: string, u: string)
    requires Text.Contains(s, t) && u <= t
    ensures Text.Contains(s, u)
  {
    var k :| Text.OccursAt(s, t, k);
    assert s[k..k + |u|] == t[..|u|];
    assert Text.OccursAt(s, u, k);
  }

  /** A query that reaches past the first five rules and mentions "keyboard"
      gets the API-key reply as written; with the corrected order it gets
      the shortcut reply. */
  lemma KeyboardGetsApiReply(query: string)
    requires Text.Contains(Text.ToLower(query), "keyboard")
    requires forall j :: 0 <= j < 5 ==> !RuleMatches(RulesAsWritten[j], Text.ToLower(query))
    ensures GenerateResponseAsWritten(query) == ApiKeyReply
    ensures GenerateResponse(query) == ShortcutReply
  {
    var q := Text.ToLower(query);
    ContainsPrefix(q, "keyboard", "key");
    assert RuleMatches(ApiKeyRule, q) by {
      assert "key" in ["api", "key"];
    }
    assert RuleMatches(ShortcutRule, q) by {
      assert "keyboard" in ["keyboard", "shortcut"];
    }
    assert RulesAsWritten[5] == ApiKeyRule && Rules[5] == ShortcutRule;
    assert forall j :: 0 <= j < 5 ==> Rules[j] == RulesAsWritten[j];
    assert !RuleMatches(Rules[0], q) && !RuleMatches(Rules[1], q) && !RuleMatches(Rules[2], q);
    assert !RuleMatches(Rules[3], q) && !RuleMatches(Rules[4], q);
    var a := FirstMatch(RulesAsWritten, q);
    var b := FirstMatch(Rules, q);
    assert a == Some(5);
    assert b == Some(5);
  }

  /** A string lacking a character of `t` does not contain `t`. */
  lemma MissingChar(s: string, t: string, c: char)
    requires c in t && c !in s
    ensures !Text.Contains(s, t)
  {
    if Text.Contains(s, t) {
      Text.ContainsHasChars(s, t, c);
    }
  }

  lemma LowerKeyboard()
    ensures Text.ToLower("keyboard") == "keyboard"
  {
    var q := "keyboard";
    assert forall k :: 0 <= k < |q| ==> Text.ToLower(q)[k] == q[k];
  }

  lemma {:induction false} KeyboardMissesGreeting(q: string)
    requires q == "keyboard"
    ensures !RuleMatches(GreetingRule, q)
  {
    MissingChar(q, "hello", 'h');
    MissingChar(q, "hi", 'h');
    GreetingMissed(q);
  }

  /** The word "keyboard" itself passes the first five rules. */
  lemma {:induction false} KeyboardPassesFirstRules(q: string)
    requires q == "keyboard"
    ensures forall j :: 0 <= j < 5 ==> !RuleMatches(RulesAsWritten[j], q)
  {
    KeyboardMissesGreeting(q);
    assert 'f' !in q && 'm' !in q && 'n' !in q;
    NextRulesMissed(q);
  }

  /** "keyboard" as written gets the API-key reply, corrected the shortcut reply. */
  lemma KeyboardExample()
    ensures GenerateResponseAsWritten("keyboard") == ApiKeyReply
    ensures GenerateResponse("keyboard") == ShortcutReply
  {
    LowerKeyboard();
    KeyboardPassesFirstRules("keyboard");
    assert Text.OccursAt("keyboard", "keyboard", 0);
    KeyboardGetsApiReply("keyboard");
  }

  /** A keyword without a space that occurs in two words joined by a space
      occurs in one of the words. */
  lemma {:induction false} ContainsAcrossSpace(a: string, b: string, t: string)
    requires ' ' !in t
    ensures Text.Contains(a + " " + b, t) ==> Text.Contains(a, t) || Text.Contains(b, t)
  {
    var s := a + " " + b;
    if Text.Contains(s, t) {
      var k :| Text.OccursAt(s, t, k);
      assert s[|a|] == ' ';
      assert forall p :: k <= p < k + |t| ==> s[p] == t[p - k];
      assert forall p :: k <= p < k + |t| ==> s[p] != ' ';
      assert |a| < k || k + |t| <= |a|;
      if k + |t| <= |a| {
        assert s[..|a|] == a;
        assert s[k..k + |t|] == s[..|a|][k..k + |t|];
        assert Text.OccursAt(a, t, k);
      } else {
        var j := k - |a| - 1;
        assert s[|a| + 1..] == b;
        assert s[k..k + |t|] == s[|a| + 1..][j..j + |t|];
        assert Text.OccursAt(b, t, j);
      }
    }
  }

  /** The suggested keyboard question, lower-cased. */
  const KeyboardQuestion := "what keyboard shortcuts are available?"

  /** Five words joined by spaces contain neither "hello" nor "hi" when each
      word lacks an 'h', or lacks both an 'e' and an 'i'. */
  lemma {:induction false} GreetingMissesFiveWords(a: string, b: string, c: string, d: string, e: string)
    requires 'h' !in a || ('e' !in a && 'i' !in a)
    requires 'h' !in b || ('e' !in b && 'i' !in b)
    requires 'h' !in c || ('e' !in c && 'i' !in c)
    requires 'h' !in d || ('e' !in d && 'i' !in d)
    requires 'h' !in e || ('e' !in e && 'i' !in e)
    ensures !RuleMatches(GreetingRule, a + " " + (b + " " + (c + " " + (d + " " + e))))
  {
    var q := a + " " + (b + " " + (c + " " + (d + " " + e)));
    forall t, w | t in ["hello", "hi"] && w in [a, b, c, d, e]
      ensures !Text.Contains(w, t)
    {
      if 'h' !in w {
        MissingChar(w, t, 'h');
      } else if t == "hello" {
        MissingChar(w, t, 'e');
      } else {
        MissingChar(w, t, 'i');
      }
    }
    forall t | t in ["hello", "hi"]
      ensures !Text.Contains(q, t)
    {
      ContainsAcrossSpace(d, e, t);
      ContainsAcrossSpace(c, d + " " + e, t);
      ContainsAcrossSpace(b, c + " " + (d + " " + e), t);
      ContainsAcrossSpace(a, b + " " + (c + " " + (d + " " + e)), t);
    }
    GreetingMissed(q);
  }

  /** The suggested keyboard question lower-cases to `KeyboardQuestion`. */
  lemma LowerKeyboardQuestion()
    ensures SuggestedQuestions[4] == "What keyboard shortcuts are available?"
    ensures Text.ToLower(SuggestedQuestions[4]) == KeyboardQuestion
  {
    var question := SuggestedQuestions[4];
    var q := KeyboardQuestion;
    assert forall k :: 0 <= k < |q| ==> Text.ToLower(question)[k] == q[k];
  }

  /** The keyboard question is five words joined by single spaces. */
  lemma {:induction false} KeyboardQuestionWords(q: string)
    requires q == KeyboardQuestion
    ensures q == "what" + " " + ("keyboard" + " " + ("shortcuts" + " " + ("are" + " " + "available?")))
  {
  }

  /** Which characters the keyboard question lacks. */
  lemma {:induction false} KeyboardQuestionLacks(q: string)
    requires q == KeyboardQuestion
    ensures 'f' !in q && 'm' !in q && 'n' !in q
  {
    KeyboardQuestionWords(q);
    MissingFromFiveWords('f', "what", "keyboard", "shortcuts", "are", "available?");
    MissingFromFiveWords('m', "what", "keyboard", "shortcuts", "are", "available?");
    MissingFromFiveWords('n', "what", "keyboard", "shortcuts", "are", "available?");
  }

  /** A letter other than the space that no word holds is absent from the
      words joined by spaces. */
  lemma {:induction false} MissingFromFiveWords(ch: char, a: string, b: string, c: string, d: string, e: string)
    requires ch != ' ' && ch !in a && ch !in b && ch !in c && ch !in d && ch !in e
    ensures ch !in a + " " + (b + " " + (c + " " + (d + " " + e)))
  {
  }

  lemma {:induction false} GreetingMissed(q: string)
    requires !Text.Contains(q, "hello") && !Text.Contains(q, "hi")
    ensures !RuleMatches(GreetingRule, q)
  {
    assert ["hello", "hi"] in GreetingRule.groups;
  }

  lemma {:induction false} CreateDocumentMissed(q: string)
    requires 'm' !in q
    ensures !RuleMatches(CreateDocumentRule, q)
  {
    MissingChar(q, "document", 'm');
    assert ["document"] in CreateDocumentRule.groups;
  }

  lemma {:induction false} FolderMissed(q: string)
    requires 'f' !in q
    ensures !RuleMatches(FolderRule, q)
  {
    MissingChar(q, "folder", 'f');
    assert ["folder"] in FolderRule.groups;
  }

  lemma {:induction false} InviteMissed(q: string)
    requires 'm' !in q && 'n' !in q
    ensures !RuleMatches(InviteRule, q)
  {
    MissingChar(q, "invite", 'n');
    MissingChar(q, "team", 'm');
    MissingChar(q, "member", 'm');
    assert ["invite", "team", "member"] in InviteRule.groups;
  }

  lemma {:induction false} SettingsMissed(q: string)
    requires 'n' !in q
    ensures !RuleMatches(SettingsRule, q)
  {
    MissingChar(q, "settings", 'n');
    MissingChar(q, "account", 'n');
    assert ["settings", "account"] in SettingsRule.groups;
  }

  lemma {:induction false} KeyboardQuestionMentionsKeyboard(q: string)
    requires q == KeyboardQuestion
    ensures Text.Contains(q, "keyboard")
  {
    assert q == "what " + "keyboard" + " shortcuts are available?";
    assert q[5..13] == ("what " + "keyboard" + " shortcuts are available?")[5..13];
    assert Text.OccursAt(q, "keyboard", 5);
  }

  /** "what" and "shortcuts" hold an 'h', yet neither "hello" nor "hi"
      occurs in the keyboard question. */
  lemma {:induction false} KeyboardQuestionMissesGreeting(q: string)
    requires q == KeyboardQuestion
    ensures !RuleMatches(GreetingRule, q)
  {
    KeyboardQuestionWords(q);
    GreetingMissesFiveWords("what", "keyboard", "shortcuts", "are", "available?");
  }

  /** A query without 'f', 'm' or 'n' misses rules 2 to 5. */
  lemma {:induction false} NextRulesMissed(q: string)
    requires 'f' !in q && 'm' !in q && 'n' !in q
    ensures forall j :: 1 <= j < 5 ==> !RuleMatches(RulesAsWritten[j], q)
  {
    CreateDocumentMissed(q);
    FolderMissed(q);
    InviteMissed(q);
    SettingsMissed(q);
  }

  /** The keyboard question mentions "keyboard" but matches none of the
      first five rules. */
  lemma {:induction false} KeyboardQuestionPassesFirstRules(q: string)
    requires q == KeyboardQuestion
    ensures Text.Contains(q, "keyboard")
    ensures forall j :: 0 <= j < 5 ==> !RuleMatches(RulesAsWritten[j], q)
  {
    KeyboardQuestionMentionsKeyboard(q);
    KeyboardQuestionMissesGreeting(q);
    KeyboardQuestionLacks(q);
    NextRulesMissed(q);
  }

  /** The suggested question "What keyboard shortcuts are available?" gets
      the API-key reply as written and the shortcut reply once reordered. */
  lemma {:induction false} KeyboardQuestionExample(question: string)
    requires question == SuggestedQuestions[4]
    ensures GenerateResponseAsWritten(question) == ApiKeyReply
    ensures GenerateResponse(question) == ShortcutReply
  {
    LowerKeyboardQuestion();
    KeyboardQuestionPassesFirstRules(Text.ToLower(question));
    KeyboardGetsApiReply(question);
  }

  datatype Role = User | Assistant
  datatype Message = Message(content: string, role: Role)

  /** How many messages have the given role. */
  function CountRole(ms: seq<Message>, role: Role): nat {
    if ms == [] then 0
    else CountRole(ms[..|ms| - 1], role) + (if ms[|ms| - 1].role == role then 1 else 0)
  }

  lemma CountRoleAppend(ms: seq<Message>, m: Message, role: Role)
    ensures CountRole(ms + [m], role) == CountRole(ms, role) + (if m.role == role then 1 else 0)
  {
    assert (ms + [m])[..|ms|] == ms;
  }

  class ChatWindow {
    var isOpen: bool
    var isMinimized: bool
    var messages: seq<Message>
    var input: string
    var isTyping: bool
    /** The submitted inputs whose replies have not arrived yet. */
    var pending: seq<string>

    /** The welcome message comes first, and every user message has its
        reply on screen or still pending. */
    predicate Valid()
      reads this
    {
      |messages| >= 1 && messages[0] == Message(Welcome, Assistant) &&
      CountRole(messages, User) + 1 == CountRole(messages, Assistant) + |pending|
    }

    constructor()
      ensures Valid()
      ensures !isOpen && !isMinimized && messages == [Message(Welcome, Assistant)]
      ensures input == "" && !isTyping && pending == []
    {
      isOpen := false;
      isMinimized := false;
      messages := [Message(Welcome, Assistant)];
      input := "";
      isTyping := false;
      pending := [];
      assert [Message(Welcome, Assistant)][..0] == [];
    }

    /** The launcher button: flips open and always un-minimises. */
    method ToggleChat()
      modifies this
      ensures isOpen == !old(isOpen) && !isMinimized
      ensures messages == old(messages) && input == old(input) && pending == old(pending) && isTyping == old(isTyping)
    {
      isOpen := !isOpen;
      isMinimized := false;
    }

    method ToggleMinimize()
      modifies this
      ensures isMinimized == !old(isMinimized) && isOpen == old(isOpen)
      ensures messages == old(messages) && input == old(input) && pending == old(pending) && isTyping == old(isTyping)
    {
      isMinimized := !isMinimized;
    }

    method Close()
      modifies this
      ensures !isOpen && isMinimized == old(isMinimized)
      ensures messages == old(messages) && input == old(input) && pending == old(pending) && isTyping == old(isTyping)
    {
      isOpen := false;
    }

    method ChangeInput(value: string)
      modifies this
      ensures input == value
      ensures messages == old(messages) && pending == old(pending) && isTyping == old(isTyping) && isOpen == old(isOpen)
      ensures isMinimized == old(isMinimized)
    {
      input := value;
    }

    /** A suggested question only fills the input; nothing is sent. */
    method PickSuggestedQuestion(question: string)
      modifies this
      ensures input == question
      ensures messages == old(messages) && pending == old(pending) && isTyping == old(isTyping) && isOpen == old(isOpen)
      ensures isMinimized == old(isMinimized)
    {
      input := question;
    }

    /** Sending: a blank input changes nothing; otherwise the input, as
        typed, becomes a user message, its reply is awaited, the input
        clears and the typing indicator shows. */
    method Submit()
      requires Valid()
      modifies this
      ensures Valid()
      ensures Text.IsBlank(old(input)) ==>
        messages == old(messages) && input == old(input) && pending == old(pending) && isTyping == old(isTyping)
      ensures !Text.IsBlank(old(input)) ==>
        messages == old(messages) + [Message(old(input), User)] && pending == old(pending) + [old(input)] &&
        input == "" && isTyping
      ensures isOpen == old(isOpen) && isMinimized == old(isMinimized)
    {
      Text.TrimEmptyIffBlank(input);
      if Text.Trim(input) == "" {
        return;
      }
      CountRoleAppend(messages, Message(input, User), User);
      CountRoleAppend(messages, Message(input, User), Assistant);
      messages := messages + [Message(input, User)];
      pending := pending + [input];
      input := "";
      isTyping := true;
    }

    /** The `i`-th awaited input is answered with `text`: one assistant
        message is appended, that input is no longer awaited, typing stops. */
    method AnswerPending(i: nat, text: string)
      requires Valid() && i < |pending|
      modifies this
      ensures Valid()
      ensures messages == old(messages) + [Message(text, Assistant)]
      ensures pending == old(pending[..i] + pending[i + 1..])
      ensures !isTyping
      ensures input == old(input) && isOpen == old(isOpen) && isMinimized == old(isMinimized)
    {
      var reply := Message(text, Assistant);
      CountRoleAppend(messages, reply, User);
      CountRoleAppend(messages, reply, Assistant);
      messages := messages + [reply];
      pending := pending[..i] + pending[i + 1..];
      isTyping := false;
    }

    /** The reply to the `i`-th awaited input arrives, routed with the rule
        order corrected: keyboard questions get the shortcut answer. */
    method DeliverReply(i: nat)
      requires Valid() && i < |pending|
      modifies this
      ensures Valid()
      ensures messages == old(messages) + [Message(GenerateResponse(old(pending[i])), Assistant)]
      ensures pending == old(pending[..i] + pending[i + 1..])
      ensures !isTyping
      ensures input == old(input) && isOpen == old(isOpen) && isMinimized == old(isMinimized)
    {
      AnswerPending(i, GenerateResponse(pending[i]));
    }

    /** The reply as the timer callback produces it, with the rules in their
        written order: a keyboard question gets the API-key answer. */
    method DeliverReplyAsWritten(i: nat)
      requires Valid() && i < |pending|
      modifies this
      ensures Valid()
      ensures messages == old(messages) + [Message(GenerateResponseAsWritten(old(pending[i])), Assistant)]
      ensures pending == old(pending[..i] + pending[i + 1..])
      ensures !isTyping
      ensures input == old(input) && isOpen == old(isOpen) && isMinimized == old(isMinimized)
    {
      AnswerPending(i, GenerateResponseAsWritten(pending[i]));
    }
  }
}

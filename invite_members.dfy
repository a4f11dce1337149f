/**
 * The "Invite team members" dialog: the list of addresses being collected
 * (added from the input on Enter, comma, space or blur; removed from its
 * badge), the submit that produces the invite link, and closing.
 *
 * The dialog's form library validates its `emails` field before the submit
 * handler runs. No input is bound to that field, so its value stays "" and
 * the check always fails: `SubmitOutcomeAsWritten` and `SubmitAsWritten`
 * model that; `SubmitOutcome` and `Submit` are the evidently intended
 * submit, which looks at the list.
 */
module InviteMembers {
  import opened Wrappers
  import Text
  import EmailPattern
  import Lists

  const SchemaMessage := "Please enter at least one email address."
  const EmptyListMessage := "Please add at least one email address."
  const InviteLink := "https://team.docs.com/invite/abc123xyz"
  const DefaultMessage := "I'd like to invite you to collaborate on our documentation portal."

  /** `isValidEmail`: the pattern `^[^\s@]+@[^\s@]+\.[^\s@]+$`. */
  function IsValidEmail(email: string): (r: bool)
    ensures r <==> EmailPattern.MatchesEmailPattern(email)
  {
    EmailPattern.IsValidEmailMatchesPattern(email);
    EmailPattern.IsValidEmail(email)
  }

  /** `addEmail` takes the input only when it is non-empty, new and valid. */
  predicate Accepts(current: string, emailList: seq<string>) {
    current != "" && current !in emailList && IsValidEmail(current)
  }

  /** The keys that commit the typed address. */
  predicate IsCommitKey(key: string) {
    key == "Enter" || key == "," || key == " "
  }

  /** The toast after sending: "email" for one address, "emails" for more. */
  function SentDescription(n: nat): string {
    "Invitations have been sent to " + Text.NatToString(n) + " email" + (if n > 1 then "s" else "") + "."
  }

  /** The description ends in " emails." exactly when more than one address was sent. */
  lemma SentDescriptionPlural(n: nat)
    ensures var d := SentDescription(n);
      |d| >= 8 && (d[|d| - 8..] == " emails." <==> n > 1)
  {
    var d := SentDescription(n);
    var digits := Text.NatToString(n);
    if n > 1 {
      assert d == "Invitations have been sent to " + digits + " emails.";
    } else {
      assert d == "Invitations have been sent to " + digits + " email.";
      assert d[|d| - 7] == ' ';
      assert d[|d| - 8] == digits[|digits| - 1];
    }
  }

  datatype SubmitResult = SchemaRejected | NoEmails | Sent(count: nat)

  /** The intended submit: an empty list is an error, otherwise every
      address in the list is invited. */
  function SubmitOutcome(emailList: seq<string>): (o: SubmitResult)
    ensures o == NoEmails <==> emailList == []
    ensures o != NoEmails ==> o == Sent(|emailList|) && |emailList| >= 1
  {
    if |emailList| == 0 then NoEmails else Sent(|emailList|)
  }

  /** The submit as written: the form's `emails` value must be non-empty
      before the handler runs at all. */
  function SubmitOutcomeAsWritten(emailsValue: string, emailList: seq<string>): (o: SubmitResult)
    ensures o == SchemaRejected <==> emailsValue == ""
    ensures emailsValue != "" ==> o == SubmitOutcome(emailList)
  {
    if |emailsValue| < 1 then SchemaRejected else SubmitOutcome(emailList)
  }

  /** With one valid address collected, the dialog as written still rejects
      the submit, while the intended submit sends one invitation. */
  lemma SubmitNeverRunsAsWritten()
    ensures IsValidEmail("ana@team.io")
    ensures SubmitOutcomeAsWritten("", ["ana@team.io"]) == SchemaRejected
    ensures SubmitOutcome(["ana@team.io"]) == Sent(1)
  {
    var s := "ana@team.io";
    assert EmailPattern.SplitsAsEmail(s, 3, 8) by {
      assert s[..3] == "ana" && s[4..8] == "team" && s[9..] == "io";
    }
  }

  class InviteDialog {
    var open: bool
    var emailList: seq<string>
    var currentEmail: string
    var inviteLink: string
    /** The form's `emails` field; nothing writes it but a reset. */
    var emailsValue: string
    var message: string
    var emailsError: Option<string>
    /** The description of the last toast shown. */
    var toast: Option<string>

    /** No address twice, every address valid, and the unbound field empty. */
    ghost predicate Valid()
      reads this
    {
      Lists.NoDuplicates(emailList) &&
      (forall e :: e in emailList ==> EmailPattern.MatchesEmailPattern(e)) &&
      emailsValue == ""
    }

    /** The form is shown until a link exists. */
    predicate ShowsForm()
      reads this
    {
      inviteLink == ""
    }

    constructor()
      ensures Valid()
      ensures !open && emailList == [] && currentEmail == "" && inviteLink == ""
      ensures emailsValue == "" && message == DefaultMessage && emailsError == None && toast == None
    {
      open := false;
      emailList := [];
      currentEmail := "";
      inviteLink := "";
      emailsValue := "";
      message := DefaultMessage;
      emailsError := None;
      toast := None;
    }

    /** `onOpenChange`: the trigger opens, the overlay and close button close. */
    method SetOpen(value: bool)
      modifies this
      ensures open == value
      ensures emailList == old(emailList) && currentEmail == old(currentEmail) && inviteLink == old(inviteLink)
      ensures emailsValue == old(emailsValue) && message == old(message)
      ensures emailsError == old(emailsError) && toast == old(toast)
    {
      open := value;
    }

    method ChangeCurrentEmail(value: string)
      modifies this
      ensures currentEmail == value
      ensures emailList == old(emailList) && inviteLink == old(inviteLink) && emailsValue == old(emailsValue)
      ensures open == old(open) && message == old(message)
      ensures emailsError == old(emailsError) && toast == old(toast)
    {
      currentEmail := value;
    }

    method ChangeMessage(value: string)
      modifies this
      ensures message == value
      ensures emailList == old(emailList) && currentEmail == old(currentEmail) && emailsValue == old(emailsValue)
      ensures open == old(open) && inviteLink == old(inviteLink)
      ensures emailsError == old(emailsError) && toast == old(toast)
    {
      message := value;
    }

    /** `addEmail` (also the input's blur handler): an accepted address is
        appended and the input cleared; otherwise nothing changes. */
    method AddEmail()
      requires Valid()
      modifies this
      ensures Valid()
      ensures Accepts(old(currentEmail), old(emailList)) ==>
        emailList == old(emailList) + [old(currentEmail)] && currentEmail == ""
      ensures !Accepts(old(currentEmail), old(emailList)) ==>
        emailList == old(emailList) && currentEmail == old(currentEmail)
      ensures inviteLink == old(inviteLink) && open == old(open)
      ensures emailsValue == old(emailsValue) && message == old(message)
      ensures emailsError == old(emailsError) && toast == old(toast)
    {
      if currentEmail != "" && currentEmail !in emailList && IsValidEmail(currentEmail) {
        Lists.AppendNoDuplicates(emailList, currentEmail);
        emailList := emailList + [currentEmail];
        currentEmail := "";
      }
    }

    /** Enter, comma and space commit the typed address; other keys do nothing here. */
    method KeyDown(key: string)
      requires Valid()
      modifies this
      ensures Valid()
      ensures IsCommitKey(key) && Accepts(old(currentEmail), old(emailList)) ==>
        emailList == old(emailList) + [old(currentEmail)] && currentEmail == ""
      ensures !(IsCommitKey(key) && Accepts(old(currentEmail), old(emailList))) ==>
        emailList == old(emailList) && currentEmail == old(currentEmail)
      ensures inviteLink == old(inviteLink) && open == old(open)
      ensures emailsValue == old(emailsValue) && message == old(message)
      ensures emailsError == old(emailsError) && toast == old(toast)
    {
      if IsCommitKey(key) {
        AddEmail();
      }
    }

    /** The badge's remove button: that address goes, the others keep their order. */
    method RemoveEmail(email: string)
      requires Valid()
      modifies this
      ensures Valid()
      ensures emailList == Lists.RemoveAll(old(emailList), email)
      ensures email !in emailList
      ensures forall i :: 0 <= i < |old(emailList)| && old(emailList)[i] == email ==>
        emailList == old(emailList)[..i] + old(emailList)[i + 1..]
      ensures email !in old(emailList) ==> emailList == old(emailList)
      ensures currentEmail == old(currentEmail) && inviteLink == old(inviteLink) && open == old(open)
      ensures emailsValue == old(emailsValue) && message == old(message)
      ensures emailsError == old(emailsError) && toast == old(toast)
    {
      Lists.RemoveAllNoDuplicates(emailList, email);
      forall i | 0 <= i < |emailList| && emailList[i] == email
        ensures Lists.RemoveAll(emailList, email) == emailList[..i] + emailList[i + 1..]
      {
        Lists.RemoveAllUnique(emailList, i);
      }
      if email !in emailList {
        Lists.RemoveAllAbsent(emailList, email);
      }
      emailList := Lists.RemoveAll(emailList, email);
    }

    /** `form.reset()`: the fields go back to their defaults, errors clear. */
    method ResetForm()
      modifies this
      ensures emailsValue == "" && message == DefaultMessage && emailsError == None
      ensures emailList == old(emailList) && currentEmail == old(currentEmail)
      ensures inviteLink == old(inviteLink) && open == old(open) && toast == old(toast)
    {
      emailsValue := "";
      message := DefaultMessage;
      emailsError := None;
    }

    /** The intended submit: an empty list sets the field error; otherwise
        the link appears, the toast counts the addresses, the form resets
        and the list empties. */
    method Submit()
      requires Valid()
      modifies this
      ensures Valid()
      ensures old(emailList) == [] ==>
        emailsError == Some(EmptyListMessage) && inviteLink == old(inviteLink) && toast == old(toast) &&
        emailList == [] && message == old(message) && emailsValue == old(emailsValue)
      ensures old(emailList) != [] ==>
        inviteLink == InviteLink && toast == Some(SentDescription(|old(emailList)|)) &&
        emailList == [] && emailsError == None && message == DefaultMessage && emailsValue == ""
      ensures open == old(open) && currentEmail == old(currentEmail)
    {
      match SubmitOutcome(emailList)
      case NoEmails =>
        emailsError := Some(EmptyListMessage);
      case Sent(n) =>
        inviteLink := InviteLink;
        toast := Some(SentDescription(n));
        ResetForm();
        emailList := [];
    }

    /** The submit as written: the unbound `emails` field is checked first,
        so with it empty nothing is sent, whatever the list holds. */
    method SubmitAsWritten()
      modifies this
      ensures old(emailsValue) == "" ==>
        emailsError == Some(SchemaMessage) && inviteLink == old(inviteLink) &&
        emailList == old(emailList) && toast == old(toast) &&
        message == old(message) && emailsValue == old(emailsValue)
      ensures old(emailsValue) != "" && old(emailList) == [] ==>
        emailsError == Some(EmptyListMessage) && inviteLink == old(inviteLink) && emailList == [] &&
        toast == old(toast) && message == old(message) && emailsValue == old(emailsValue)
      ensures old(emailsValue) != "" && old(emailList) != [] ==>
        inviteLink == InviteLink && toast == Some(SentDescription(|old(emailList)|)) && emailList == [] &&
        emailsError == None && message == DefaultMessage && emailsValue == ""
      ensures open == old(open) && currentEmail == old(currentEmail)
    {
      match SubmitOutcomeAsWritten(emailsValue, emailList)
      case SchemaRejected =>
        emailsError := Some(SchemaMessage);
      case NoEmails =>
        emailsError := Some(EmptyListMessage);
      case Sent(n) =>
        inviteLink := InviteLink;
        toast := Some(SentDescription(n));
        ResetForm();
        emailList := [];
    }

    /** Cancel and Done: close, drop the link, reset the form, empty the list. */
    method CloseDialog()
      modifies this
      ensures !open && inviteLink == "" && emailList == []
      ensures emailsValue == "" && message == DefaultMessage && emailsError == None
      ensures currentEmail == old(currentEmail) && toast == old(toast)
      ensures Valid()
    {
      open := false;
      inviteLink := "";
      ResetForm();
      emailList := [];
    }
  }
}

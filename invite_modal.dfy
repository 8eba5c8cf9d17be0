/** The team invite modal: the comma-separated address field, its parsing
    into a clean address list, and the submit flow around the `onInvite`
    prop. */
module InviteModal {
  import opened Wrappers
  import opened Seqs
  import opened Strings
  import opened Types

  /** `.map(email => email.trim())`. */
  function TrimAll(parts: seq<string>): (r: seq<string>)
    ensures |r| == |parts|
    ensures forall i :: 0 <= i < |r| ==> r[i] == Trim(parts[i])
  {
    seq(|parts|, i requires 0 <= i < |parts| => Trim(parts[i]))
  }

  /** A usable address: non-empty, trimmed and without a comma. */
  predicate Clean(e: string) {
    e != [] && IsTrimmed(e) && ',' !in e
  }

  /** `.filter(email => email.length > 0)`. */
  predicate NonBlank(e: string) {
    |e| > 0
  }

  /** `emails.split(',').map(trim).filter(nonempty)`: the non-blank pieces
      between commas, trimmed, in the order typed. */
  function ParseEmails(text: string): seq<string> {
    Filter(TrimAll(Split(text, ',')), NonBlank)
  }

  /** Every parsed address is clean, and every piece that is not blank once
      trimmed is among them. */
  lemma ParseEmailsClean(text: string)
    ensures forall i :: 0 <= i < |ParseEmails(text)| ==> Clean(ParseEmails(text)[i])
    ensures forall i :: 0 <= i < |Split(text, ',')| && Trim(Split(text, ',')[i]) != [] ==>
      Trim(Split(text, ',')[i]) in ParseEmails(text)
  {
    var pieces := Split(text, ',');
    var t := TrimAll(pieces);
    var r := ParseEmails(text);
    SplitPiecesSepFree(text, ',');
    forall i | 0 <= i < |r|
      ensures Clean(r[i])
    {
      var k :| 0 <= k < |t| && t[k] == r[i];
      TrimKeepsChars(pieces[k]);
    }
    forall i | 0 <= i < |pieces| && Trim(pieces[i]) != []
      ensures Trim(pieces[i]) in r
    {
      assert t[i] == Trim(pieces[i]);
    }
  }

  /** `TrimAll` of a concatenation. */
  lemma TrimAllAppend(a: seq<string>, b: seq<string>)
    ensures TrimAll(a + b) == TrimAll(a) + TrimAll(b)
  {
  }

  /** The parse of text joined by a comma is the parse of each side, one
      after the other: addresses keep the order they were typed in. */
  lemma ParseEmailsAppend(a: string, b: string)
    ensures ParseEmails(a + [','] + b) == ParseEmails(a) + ParseEmails(b)
  {
    var sa := Split(a, ',');
    var sb := Split(b, ',');
    SplitAppend(a, ',', b);
    TrimAllAppend(sa, sb);
    FilterAppend(TrimAll(sa), TrimAll(sb), NonBlank);
  }

  /** Writing a list of clean addresses out with commas and parsing it
      gives back the list. */
  lemma ParseJoinRoundTrip(emails: seq<string>)
    requires forall i :: 0 <= i < |emails| ==> Clean(emails[i])
    ensures ParseEmails(Join(emails, ',')) == emails
  {
    if |emails| == 0 {
      EmptyTextParsesEmpty();
    } else {
      SplitJoin(emails, ',');
      CleanTrimmed(emails);
      FilterKeepsAll(emails, NonBlank);
    }
  }

  /** Trimming clean addresses changes nothing. */
  lemma CleanTrimmed(emails: seq<string>)
    requires forall i :: 0 <= i < |emails| ==> Clean(emails[i])
    ensures TrimAll(emails) == emails
  {
    forall i | 0 <= i < |emails|
      ensures TrimAll(emails)[i] == emails[i]
    {
      assert IsTrimmed(emails[i]);
    }
  }

  /** The empty field parses to no addresses. */
  lemma EmptyTextParsesEmpty()
    ensures ParseEmails("") == []
  {
    assert Split("", ',') == [""];
    assert TrimAll([""]) == [""];
    assert Filter([""], NonBlank) == [];
  }

  /** Text that trims to nothing parses to no addresses, so the first guard
      of `handleSubmit` never rejects text the second would accept. */
  lemma BlankTextParsesEmpty(text: string)
    requires Trim(text) == []
    ensures ParseEmails(text) == []
  {
    SplitKeepsChars(text, ',');
    var pieces := Split(text, ',');
    var t := TrimAll(pieces);
    forall k | 0 <= k < |t|
      ensures !NonBlank(t[k])
    {
      forall j | 0 <= j < |pieces[k]|
        ensures IsWhitespace(pieces[k][j])
      {
        assert pieces[k][j] in text;
      }
    }
    FilterNone(t, NonBlank);
  }

  /** A lone comma is not blank, yet parses to no addresses: the second
      guard of `handleSubmit` is needed too. */
  lemma CommaOnlyParsesEmpty()
    ensures Trim(",") != [] && ParseEmails(",") == []
  {
    assert "," == "" + [','] + "";
    ParseEmailsAppend("", "");
    ParseJoinRoundTrip([]);
  }

  /** The message field's initial and reset text. */
  function DefaultMessage(teamName: string): string {
    "I'd like to invite you to collaborate on " + teamName + "."
  }

  const InviteFailedAlert := "Failed to send invites. Please try again."

  /** The arguments `onInvite` is called with. */
  datatype Invite = Invite(emails: seq<string>, role: Role, message: string)

  /** The address list `handleSubmit` sends, if it sends at all: none while
      a submission runs, for blank text, or when no address survives the
      parse. */
  function Submission(emails: string, isSubmitting: bool): (r: Option<seq<string>>)
    ensures r.Some? <==> !isSubmitting && ParseEmails(emails) != []
    ensures r.Some? ==> r.value == ParseEmails(emails) && forall i :: 0 <= i < |r.value| ==> Clean(r.value[i])
  {
    ParseEmailsClean(emails);
    if isSubmitting then None
    else if Trim(emails) == [] then BlankTextParsesEmpty(emails); None
    else
      var list := ParseEmails(emails);
      if |list| == 0 then None else Some(list)
  }

  class InviteForm {
    const teamName: string
    var emails: string
    var role: Role
    var message: string
    var isSubmitting: bool
    /** Whether `onClose` has been called. */
    var closed: bool

    /** A fresh modal: no addresses, the carrier role, the default message. */
    constructor (teamName: string)
      ensures this.teamName == teamName
      ensures emails == "" && role == Carrier && message == DefaultMessage(teamName)
      ensures !isSubmitting && !closed
    {
      this.teamName := teamName;
      emails := "";
      role := Carrier;
      message := DefaultMessage(teamName);
      isSubmitting := false;
      closed := false;
    }

    method SetEmails(text: string)
      modifies this
      ensures emails == text && role == old(role) && message == old(message)
      ensures isSubmitting == old(isSubmitting) && closed == old(closed)
    {
      emails := text;
    }

    method SetRole(r: Role)
      modifies this
      ensures role == r && emails == old(emails) && message == old(message)
      ensures isSubmitting == old(isSubmitting) && closed == old(closed)
    {
      role := r;
    }

    method SetMessage(text: string)
      modifies this
      ensures message == text && emails == old(emails) && role == old(role)
      ensures isSubmitting == old(isSubmitting) && closed == old(closed)
    {
      message := text;
    }

    /** `handleSubmit`. `inviteFails` says whether `onInvite` rejects; `sent`
        is the call made, if any. Without a submission nothing changes. A
        successful send clears the addresses, resets the message and closes
        the modal; a failed one shows the alert and keeps the form. The guard
        is down again afterwards either way. */
    method HandleSubmit(inviteFails: bool) returns (sent: Option<Invite>, alert: Option<string>)
      modifies this
      ensures isSubmitting == old(isSubmitting) && role == old(role)
      ensures Submission(old(emails), old(isSubmitting)).None? ==>
        && sent.None? && alert.None?
        && emails == old(emails) && message == old(message) && closed == old(closed)
      ensures Submission(old(emails), old(isSubmitting)).Some? ==>
        && sent == Some(Invite(ParseEmails(old(emails)), role, old(message)))
        && (inviteFails ==>
              alert == Some(InviteFailedAlert)
              && emails == old(emails) && message == old(message) && closed == old(closed))
        && (!inviteFails ==>
              alert.None? && emails == "" && message == DefaultMessage(teamName) && closed)
    {
      sent, alert := None, None;
      if Trim(emails) == [] || isSubmitting {
        return;
      }
      var list := ParseEmails(emails);
      if |list| == 0 {
        return;
      }
      isSubmitting := true;
      sent := Some(Invite(list, role, message));
      if inviteFails {
        alert := Some(InviteFailedAlert);
      } else {
        emails := "";
        message := DefaultMessage(teamName);
        closed := true;
      }
      isSubmitting := false;
    }
  }
}

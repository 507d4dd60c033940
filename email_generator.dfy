/** The follow-up email dialog: the texts it copies and downloads, the name of
    the downloaded file, and the state it keeps while an email is generated.
    The fetch, the clipboard, the timer, the toasts and the DOM download are
    outside the model; their results are parameters. */
module EmailGenerator {
  import opened Wrappers
  import opened Text

  datatype Attendee = Attendee(id: string, name: string, role: string)

  /** The generate-email route's reply. */
  datatype EmailData = EmailData(subject: string, body: string, recipient: string, meetingName: string, date: string)

  /** The clipboard text. */
  function CopyText(e: EmailData): string {
    "Subject: " + e.subject + "\n\n" + e.body
  }

  /** The text of the downloaded file. */
  function DownloadText(e: EmailData): string {
    "Subject: " + e.subject + "\n\nTo: " + e.recipient + "\nDate: " + e.date + "\n\n" + e.body
  }

  /** The downloaded file's name: each whitespace run of the recipient becomes `-`. */
  function DownloadName(recipient: string): (n: string)
    ensures n == "follow-up-" + ReplaceSpaceRuns(recipient, '-') + ".txt"
    ensures NoSpace(n)
    ensures 14 <= |n| <= |recipient| + 14
    ensures n[..10] == "follow-up-" && n[|n| - 4..] == ".txt"
    ensures Strip(n[10..|n| - 4], '-') == Strip(recipient, '-')
    ensures NoSpace(recipient) ==> n == "follow-up-" + recipient + ".txt"
  {
    var middle := ReplaceSpaceRuns(recipient, '-');
    ReplaceKeepsText(recipient, '-');
    ReplaceNoSpace(recipient, '-');
    ReplaceNoSpaceIdentity(recipient, '-');
    FramedParts("follow-up-", middle, ".txt");
    "follow-up-" + middle + ".txt"
  }

  /** A whitespace run between two words of the recipient, however long, becomes
      one `-` of the file name. */
  lemma DownloadNameRun(a: string, w: string, b: string)
    requires a == [] || !IsSpace(a[|a| - 1])
    requires w != [] && AllSpace(w)
    requires b == [] || !IsSpace(b[0])
    ensures DownloadName(a + w + b)
         == "follow-up-" + (ReplaceSpaceRuns(a, '-') + "-" + ReplaceSpaceRuns(b, '-')) + ".txt"
  {
    RunBecomesOneChar(a, w, b, '-');
  }

  /** The two spaces of "Ann  Lee" become one `-`, so the file is saved as
      "follow-up-Ann-Lee.txt". */
  lemma RecipientRunExample()
    ensures ReplaceSpaceRuns("Ann  Lee", '-') == "Ann-Lee"
  {
    var first, run, last := "Ann", "  ", "Lee";
    assert !IsSpace(first[2]) && !IsSpace(last[0]);
    assert AllSpace(run);
    assert first + run + last == "Ann  Lee";
    RunBecomesOneChar(first, run, last, '-');
    assert NoSpace(first) && NoSpace(last);
    ReplaceNoSpaceIdentity(first, '-');
    ReplaceNoSpaceIdentity(last, '-');
    assert first + "-" + last == "Ann-Lee";
  }

  // ----- reading the texts back -----

  /** The first line of `s` and what follows its line feed; None without one. */
  function TakeLine(s: string): (r: Option<(string, string)>)
    ensures r.Some? ==> '\n' !in r.value.0
  {
    if s == [] then None
    else if s[0] == '\n' then Some(([], s[1..]))
    else match TakeLine(s[1..])
      case None => None
      case Some((line, rest)) => Some(([s[0]] + line, rest))
  }

  lemma {:induction false} TakeLineAppend(a: string, b: string)
    requires '\n' !in a
    ensures TakeLine(a + "\n" + b) == Some((a, b))
  {
    if a == [] {
      assert a + "\n" + b == "\n" + b;
    } else {
      var s := a + "\n" + b;
      assert s[0] == a[0] && s[0] != '\n';
      assert s[1..] == a[1..] + "\n" + b;
      TakeLineAppend(a[1..], b);
      assert [a[0]] + a[1..] == a;
    }
  }

  /** `s` without `prefix`, when it starts with it. */
  function After(prefix: string, s: string): (r: Option<string>)
    ensures r.Some? ==> s == prefix + r.value
  {
    if |prefix| <= |s| && s[..|prefix|] == prefix then Some(s[|prefix|..]) else None
  }

  lemma AfterAppend(prefix: string, s: string)
    ensures After(prefix, prefix + s) == Some(s)
  {
    assert (prefix + s)[..|prefix|] == prefix;
    assert (prefix + s)[|prefix|..] == s;
  }

  /** A line that begins with `tag`, the rest of that line, and the text after it. */
  function TaggedLine(tag: string, s: string): Option<(string, string)> {
    match After(tag, s)
    case None => None
    case Some(t) => TakeLine(t)
  }

  lemma TaggedLineAppend(tag: string, a: string, b: string)
    requires '\n' !in a
    ensures TaggedLine(tag, tag + a + "\n" + b) == Some((a, b))
  {
    assert tag + a + "\n" + b == tag + (a + "\n" + b);
    AfterAppend(tag, a + "\n" + b);
    TakeLineAppend(a, b);
  }

  /** Subject and body of a copied email. */
  function ReadCopy(text: string): Option<(string, string)> {
    match TaggedLine("Subject: ", text)
    case None => None
    case Some((subject, rest)) =>
      match After("\n", rest)
      case None => None
      case Some(body) => Some((subject, body))
  }

  /** A one-line subject and the body can be read back from the copied text. */
  lemma CopyRoundTrip(e: EmailData)
    requires '\n' !in e.subject
    ensures ReadCopy(CopyText(e)) == Some((e.subject, e.body))
  {
    assert CopyText(e) == "Subject: " + e.subject + "\n" + ("\n" + e.body);
    TaggedLineAppend("Subject: ", e.subject, "\n" + e.body);
    AfterAppend("\n", e.body);
  }

  /** Subject, recipient, date and body of a downloaded email. */
  function ReadDownload(text: string): Option<(string, string, string, string)> {
    match TaggedLine("Subject: ", text)
    case None => None
    case Some((subject, rest)) =>
      match TaggedLine("\nTo: ", rest)
      case None => None
      case Some((recipient, rest2)) =>
        match TaggedLine("Date: ", rest2)
        case None => None
        case Some((date, rest3)) =>
          match After("\n", rest3)
          case None => None
          case Some(body) => Some((subject, recipient, date, body))
  }

  /** One-line subject, recipient and date and the body can be read back from
      the downloaded text. */
  lemma DownloadRoundTrip(e: EmailData)
    requires '\n' !in e.subject && '\n' !in e.recipient && '\n' !in e.date
    ensures ReadDownload(DownloadText(e)) == Some((e.subject, e.recipient, e.date, e.body))
  {
    var rest3 := "\n" + e.body;
    var rest2 := "Date: " + e.date + "\n" + rest3;
    var rest := "\nTo: " + e.recipient + "\n" + rest2;
    assert DownloadText(e) == "Subject: " + e.subject + "\n" + rest;
    TaggedLineAppend("Subject: ", e.subject, rest);
    TaggedLineAppend("\nTo: ", e.recipient, rest2);
    TaggedLineAppend("Date: ", e.date, rest3);
    AfterAppend("\n", e.body);
  }

  // ----- the dialog's state -----

  /** The body of the generate-email request, sent to `path`. */
  datatype GenerateRequest = GenerateRequest(path: string, attendeeId: string, attendeeName: string)

  /** What the fetch gave: it threw, or it answered with `ok` and a JSON body. */
  datatype Reply = NetworkError | Answered(ok: bool, data: EmailData)

  /** A text file handed to the browser. */
  datatype TextFile = TextFile(name: string, text: string)

  class Generator {
    const meetingId: string
    var open: bool
    var selectedAttendee: Option<Attendee>
    var emailData: Option<EmailData>
    var loading: bool
    var copied: bool

    constructor (meetingId: string)
      ensures this.meetingId == meetingId
      ensures !open && selectedAttendee == None && emailData == None && !loading && !copied
    {
      this.meetingId := meetingId;
      open := false;
      selectedAttendee := None;
      emailData := None;
      loading := false;
      copied := false;
    }

    /** The dialog's `onOpenChange`. */
    method SetOpen(isOpen: bool)
      modifies this
      ensures open == isOpen
      ensures selectedAttendee == old(selectedAttendee) && emailData == old(emailData)
      ensures loading == old(loading) && copied == old(copied)
    {
      open := isOpen;
    }

    /** `handleGenerateEmail` up to its fetch: it starts loading, selects the
        attendee, forgets any earlier email and asks for one. */
    method BeginGenerate(attendee: Attendee) returns (request: GenerateRequest)
      modifies this
      ensures loading && selectedAttendee == Some(attendee) && emailData == None
      ensures request == GenerateRequest("/api/meetings/" + meetingId + "/generate-email", attendee.id, attendee.name)
      ensures open == old(open) && copied == old(copied)
    {
      loading := true;
      selectedAttendee := Some(attendee);
      emailData := None;
      request := GenerateRequest("/api/meetings/" + meetingId + "/generate-email", attendee.id, attendee.name);
    }

    /** The rest of `handleGenerateEmail`: only an ok answer sets the email; a
        failed fetch or a non-ok answer leaves it as it was. Loading ends either way. */
    method FinishGenerate(reply: Reply)
      modifies this
      ensures !loading
      ensures reply.Answered? && reply.ok ==> emailData == Some(reply.data)
      ensures !(reply.Answered? && reply.ok) ==> emailData == old(emailData)
      ensures open == old(open) && selectedAttendee == old(selectedAttendee) && copied == old(copied)
    {
      if reply.Answered? && reply.ok {
        emailData := Some(reply.data);
      }
      loading := false;
    }

    /** `handleCopyEmail`: the text put on the clipboard, or nothing (and no
        change) when there is no email. */
    method Copy() returns (clipboard: Option<string>)
      modifies this
      ensures old(emailData).None? ==> clipboard == None && copied == old(copied)
      ensures old(emailData).Some? ==> clipboard == Some(CopyText(old(emailData).value)) && copied
      ensures open == old(open) && selectedAttendee == old(selectedAttendee)
      ensures emailData == old(emailData) && loading == old(loading)
    {
      if emailData.None? {
        return None;
      }
      clipboard := Some(CopyText(emailData.value));
      copied := true;
    }

    /** The two-second timer set by `handleCopyEmail`. */
    method CopyTimerElapsed()
      modifies this
      ensures !copied
      ensures open == old(open) && selectedAttendee == old(selectedAttendee)
      ensures emailData == old(emailData) && loading == old(loading)
    {
      copied := false;
    }

    /** `handleDownloadEmail`: the file offered for download, or nothing when
        there is no email. The dialog's state does not change. */
    method Download() returns (file: Option<TextFile>)
      ensures file.Some? <==> emailData.Some?
      ensures file.Some? ==> file.value.name == DownloadName(emailData.value.recipient)
      ensures file.Some? ==> file.value.text == DownloadText(emailData.value)
    {
      if emailData.None? {
        return None;
      }
      var e := emailData.value;
      file := Some(TextFile(DownloadName(e.recipient), DownloadText(e)));
    }

    /** The "Back to list" button. */
    method Back()
      modifies this
      ensures emailData == None && selectedAttendee == None
      ensures open == old(open) && loading == old(loading) && copied == old(copied)
    {
      emailData := None;
      selectedAttendee := None;
    }
  }
}

/** The `/api/transcribe` route: the mapping from the language model's JSON reply
    to the record handed to `prisma.meeting.create`, and the request flow around
    it with its 400 and 500 outcomes. The speech-to-text call, the chat call,
    `JSON.parse`, `new Date(...)`, the file staging and the database write are
    given to the model as their results. */
module Transcribe {
  import opened Wrappers
  import opened Json

  /** A point on the time line, in milliseconds since the epoch. */
  type Instant = int

  /** `new Date(v)` followed by the `isNaN(getTime())` test of `formatDate`: the
      instant `v` denotes, or None when it denotes no valid date. The grammar of
      JavaScript dates is not part of this model, so this is a parameter. */
  type DateParser = Json -> Option<Instant>

  datatype TaskRow = TaskRow(task: Json, owner: Json, dueDate: Option<Instant>)
  datatype DecisionRow = DecisionRow(decision: Json, date: Option<Instant>)
  datatype QuestionRow = QuestionRow(question: Json, status: Json, answer: Json)
  datatype InsightRow = InsightRow(insight: Json, reference: Json)
  datatype DeadlineRow = DeadlineRow(description: Json, dueDate: Option<Instant>)
  datatype AttendeeRow = AttendeeRow(name: Json, role: Json)
  datatype FollowUpRow = FollowUpRow(description: Json, owner: Json)
  datatype RiskRow = RiskRow(risk: Json, impact: Json)
  datatype AgendaRow = AgendaRow(item: string)

  /** The `data` argument of `prisma.meeting.create`: the meeting's own fields and
      the rows of its nine child collections, in the order they are created. */
  datatype MeetingData = MeetingData(
    name: Json,
    description: Json,
    rawTranscript: string,
    summary: Json,
    tasks: seq<TaskRow>,
    decisions: seq<DecisionRow>,
    questions: seq<QuestionRow>,
    insights: seq<InsightRow>,
    deadlines: seq<DeadlineRow>,
    attendees: seq<AttendeeRow>,
    followUps: seq<FollowUpRow>,
    risks: seq<RiskRow>,
    agenda: seq<AgendaRow>)

  // ----- filtering -----

  /** `s.filter(p)`. */
  function Filter(s: seq<Json>, p: Json -> bool): (r: seq<Json>)
    ensures |r| <= |s|
    ensures forall i :: 0 <= i < |r| ==> p(r[i])
  {
    if s == [] then []
    else if p(s[0]) then [s[0]] + Filter(s[1..], p)
    else Filter(s[1..], p)
  }

  /** Filtering works entry by entry, so it keeps the input order. */
  lemma {:induction false} FilterAppend(a: seq<Json>, b: seq<Json>, p: Json -> bool)
    ensures Filter(a + b, p) == Filter(a, p) + Filter(b, p)
  {
    if a == [] {
      assert a + b == b;
    } else {
      assert (a + b)[1..] == a[1..] + b;
      FilterAppend(a[1..], b, p);
    }
  }

  /** Each value that passes is kept as often as it occurs; every other value is gone. */
  lemma {:induction false} FilterCount(s: seq<Json>, p: Json -> bool, x: Json)
    ensures multiset(Filter(s, p))[x] == if p(x) then multiset(s)[x] else 0
  {
    if s != [] {
      FilterCount(s[1..], p, x);
      assert s == [s[0]] + s[1..];
      assert multiset(s) == multiset{s[0]} + multiset(s[1..]);
    }
  }

  /** A list whose every entry passes is kept whole. */
  lemma {:induction false} FilterKeepsAll(s: seq<Json>, p: Json -> bool)
    requires forall i :: 0 <= i < |s| ==> p(s[i])
    ensures Filter(s, p) == s
  {
    if s != [] {
      FilterKeepsAll(s[1..], p);
    }
  }

  /** `x && typeof x === 'object'`: a non-null object or an array. */
  predicate IsEntryObject(v: Json) {
    Truthy(v) && IsObjectType(v)
  }

  /** `item && typeof item === 'string'`: a non-empty string. */
  predicate IsAgendaItem(v: Json) {
    Truthy(v) && v.JStr?
  }

  lemma EntryObjectIsObjectOrArray(v: Json)
    ensures IsEntryObject(v) <==> v.JObj? || v.JArr?
  {
  }

  // ----- one row per kept entry -----

  /** `out` is what `e.key || d` yields: the entry's own value when it is truthy,
      `d` when it is missing or falsy. */
  predicate Defaulted(e: Json, key: string, d: Json, out: Json) {
    (HasTruthy(e, key) ==> out == e.fields[key]) && (!HasTruthy(e, key) ==> out == d)
  }

  /** `e.key ? formatDate(e.key) : null`, as an optional instant. */
  function OptionalDate(e: Json, key: string, parse: DateParser): (r: Option<Instant>)
    ensures r.Some? <==> HasTruthy(e, key) && parse(e.fields[key]).Some?
    ensures r.Some? ==> r == parse(e.fields[key])
  {
    if HasTruthy(e, key) then parse(e.fields[key]) else None
  }

  function TaskOf(e: Json, parse: DateParser): (r: TaskRow)
    ensures Defaulted(e, "description", JStr("No task description"), r.task)
    ensures Defaulted(e, "owner", JStr("Unassigned"), r.owner)
    ensures Truthy(r.task) && Truthy(r.owner)
    ensures r.dueDate.Some? <==> HasTruthy(e, "due_date") && parse(e.fields["due_date"]).Some?
    ensures r.dueDate.Some? ==> r.dueDate == parse(e.fields["due_date"])
  {
    TaskRow(
      FieldOr(e, "description", JStr("No task description")),
      FieldOr(e, "owner", JStr("Unassigned")),
      OptionalDate(e, "due_date", parse))
  }

  /** A decision without a date is dated at creation time `now`; one whose date
      does not parse has none. */
  function DecisionOf(e: Json, parse: DateParser, now: Instant): (r: DecisionRow)
    ensures Defaulted(e, "description", JStr("No decision description"), r.decision)
    ensures Truthy(r.decision)
    ensures !HasTruthy(e, "date") ==> r.date == Some(now)
    ensures HasTruthy(e, "date") ==> r.date == parse(e.fields["date"])
  {
    DecisionRow(
      FieldOr(e, "description", JStr("No decision description")),
      if HasTruthy(e, "date") then parse(e.fields["date"]) else Some(now))
  }

  function QuestionOf(e: Json): (r: QuestionRow)
    ensures Defaulted(e, "question", JStr("No question"), r.question)
    ensures Defaulted(e, "status", JStr("Unanswered"), r.status)
    ensures Defaulted(e, "answer", JStr(""), r.answer)
    ensures Truthy(r.question) && Truthy(r.status)
  {
    QuestionRow(
      FieldOr(e, "question", JStr("No question")),
      FieldOr(e, "status", JStr("Unanswered")),
      FieldOr(e, "answer", JStr("")))
  }

  function InsightOf(e: Json): (r: InsightRow)
    ensures Defaulted(e, "insight", JStr("No insight"), r.insight)
    ensures Defaulted(e, "reference", JStr(""), r.reference)
    ensures Truthy(r.insight)
  {
    InsightRow(FieldOr(e, "insight", JStr("No insight")), FieldOr(e, "reference", JStr("")))
  }

  /** A deadline's due date comes from its `date` key. */
  function DeadlineOf(e: Json, parse: DateParser): (r: DeadlineRow)
    ensures Defaulted(e, "description", JStr("No deadline description"), r.description)
    ensures Truthy(r.description)
    ensures r.dueDate.Some? <==> HasTruthy(e, "date") && parse(e.fields["date"]).Some?
    ensures r.dueDate.Some? ==> r.dueDate == parse(e.fields["date"])
  {
    DeadlineRow(
      FieldOr(e, "description", JStr("No deadline description")),
      OptionalDate(e, "date", parse))
  }

  function AttendeeOf(e: Json): (r: AttendeeRow)
    ensures Defaulted(e, "name", JStr("Unnamed Attendee"), r.name)
    ensures Defaulted(e, "role", JStr("No role specified"), r.role)
    ensures Truthy(r.name) && Truthy(r.role)
  {
    AttendeeRow(FieldOr(e, "name", JStr("Unnamed Attendee")), FieldOr(e, "role", JStr("No role specified")))
  }

  function FollowUpOf(e: Json): (r: FollowUpRow)
    ensures Defaulted(e, "description", JStr("No follow-up description"), r.description)
    ensures Defaulted(e, "owner", JStr("Unassigned"), r.owner)
    ensures Truthy(r.description) && Truthy(r.owner)
  {
    FollowUpRow(
      FieldOr(e, "description", JStr("No follow-up description")),
      FieldOr(e, "owner", JStr("Unassigned")))
  }

  function RiskOf(e: Json): (r: RiskRow)
    ensures Defaulted(e, "risk", JStr("No risk description"), r.risk)
    ensures Defaulted(e, "impact", JStr("No impact specified"), r.impact)
    ensures Truthy(r.risk) && Truthy(r.impact)
  {
    RiskRow(FieldOr(e, "risk", JStr("No risk description")), FieldOr(e, "impact", JStr("No impact specified")))
  }

  /** An agenda entry is stored as the string itself. */
  function AgendaOf(e: Json): (r: AgendaRow)
    requires IsAgendaItem(e)
    ensures JStr(r.item) == e && r.item != ""
  {
    AgendaRow(e.s)
  }

  /** An array entry has none of the keys read, so it becomes a row of defaults. */
  lemma ArrayEntryDefaults(e: Json, parse: DateParser, now: Instant)
    requires e.JArr?
    ensures TaskOf(e, parse) == TaskRow(JStr("No task description"), JStr("Unassigned"), None)
    ensures DecisionOf(e, parse, now) == DecisionRow(JStr("No decision description"), Some(now))
    ensures QuestionOf(e) == QuestionRow(JStr("No question"), JStr("Unanswered"), JStr(""))
    ensures InsightOf(e) == InsightRow(JStr("No insight"), JStr(""))
    ensures DeadlineOf(e, parse) == DeadlineRow(JStr("No deadline description"), None)
    ensures AttendeeOf(e) == AttendeeRow(JStr("Unnamed Attendee"), JStr("No role specified"))
    ensures FollowUpOf(e) == FollowUpRow(JStr("No follow-up description"), JStr("Unassigned"))
    ensures RiskOf(e) == RiskRow(JStr("No risk description"), JStr("No impact specified"))
  {
  }

  // ----- the collections -----

  /** `(data[key] || [])`, about to be sent `.filter`: the entries of the array,
      none when the key is missing or falsy, and a TypeError when the value is
      truthy but not an array, since only arrays have `filter`. */
  function Entries(data: Json, key: string): (r: Result<seq<Json>>)
    requires !data.JNull?
    ensures r.Ok? <==> !HasTruthy(data, key) || data.fields[key].JArr?
    ensures r.Ok? && !HasTruthy(data, key) ==> r.value == []
    ensures r.Ok? && HasTruthy(data, key) ==> r.value == data.fields[key].items
  {
    var v := Or(Get(data, key), JArr([]));
    if v.JArr? then Ok(v.items) else Err("filter is not a function")
  }

  /** `(data[key] || []).filter(keep)` on a collection that can be filtered. */
  function KeptEntries(data: Json, key: string, keep: Json -> bool): seq<Json>
    requires !data.JNull? && Entries(data, key).Ok?
  {
    Filter(Entries(data, key).value, keep)
  }

  /** One row per kept entry, in order, each made from its entry. */
  ghost predicate Mapped<T>(rows: seq<T>, kept: seq<Json>, row: Json -> T) {
    |rows| == |kept| && forall i :: 0 <= i < |rows| ==> rows[i] == row(kept[i])
  }

  /** `(data[key] || []).filter(keep).map(row)`. */
  function Rows<T>(data: Json, key: string, keep: Json -> bool, row: Json -> T): (r: seq<T>)
    requires !data.JNull? && Entries(data, key).Ok?
    ensures Mapped(r, KeptEntries(data, key, keep), row)
  {
    var kept := KeptEntries(data, key, keep);
    seq(|kept|, i requires 0 <= i < |kept| => row(kept[i]))
  }

  /** The agenda: one row per non-empty string, holding that string. */
  function AgendaRows(data: Json): (r: seq<AgendaRow>)
    requires !data.JNull? && Entries(data, "Agenda").Ok?
    ensures |r| == |KeptEntries(data, "Agenda", IsAgendaItem)|
    ensures forall i :: 0 <= i < |r| ==> JStr(r[i].item) == KeptEntries(data, "Agenda", IsAgendaItem)[i]
  {
    var kept := KeptEntries(data, "Agenda", IsAgendaItem);
    seq(|kept|, i requires 0 <= i < |kept| => AgendaOf(kept[i]))
  }

  /** The reply can be stored when it is not `null` and every collection key holds
      an array or a falsy value; otherwise building the record throws a TypeError. */
  predicate Storable(data: Json) {
    !data.JNull?
    && Entries(data, "Tasks").Ok? && Entries(data, "Decisions").Ok?
    && Entries(data, "Questions").Ok? && Entries(data, "Insights").Ok?
    && Entries(data, "Deadlines").Ok? && Entries(data, "Attendees").Ok?
    && Entries(data, "Follow-ups").Ok? && Entries(data, "Risks").Ok?
    && Entries(data, "Agenda").Ok?
  }

  /** The `data` object built at lines 111-188: a TypeError (property access on
      `null`, or `.filter` on a non-array) when the reply is not storable, the
      record otherwise. Every object-typed collection holds one row per entry
      that is a non-null object or an array, in input order. */
  function BuildMeeting(data: Json, transcript: string, parse: DateParser, now: Instant): (r: Result<MeetingData>)
    ensures r.Ok? <==> Storable(data)
    ensures r.Ok? ==> r.value.rawTranscript == transcript
    ensures r.Ok? ==> Defaulted(data, "Meeting Name", JStr("Untitled Meeting"), r.value.name)
    ensures r.Ok? ==> Defaulted(data, "Description", JStr("No description provided."), r.value.description)
    ensures r.Ok? ==> Defaulted(data, "Summary", JStr(""), r.value.summary)
    ensures r.Ok? ==> Mapped(r.value.tasks, KeptEntries(data, "Tasks", IsEntryObject), e => TaskOf(e, parse))
    ensures r.Ok? ==> Mapped(r.value.decisions, KeptEntries(data, "Decisions", IsEntryObject), e => DecisionOf(e, parse, now))
    ensures r.Ok? ==> Mapped(r.value.questions, KeptEntries(data, "Questions", IsEntryObject), QuestionOf)
    ensures r.Ok? ==> Mapped(r.value.insights, KeptEntries(data, "Insights", IsEntryObject), InsightOf)
    ensures r.Ok? ==> Mapped(r.value.deadlines, KeptEntries(data, "Deadlines", IsEntryObject), e => DeadlineOf(e, parse))
    ensures r.Ok? ==> Mapped(r.value.attendees, KeptEntries(data, "Attendees", IsEntryObject), AttendeeOf)
    ensures r.Ok? ==> Mapped(r.value.followUps, KeptEntries(data, "Follow-ups", IsEntryObject), FollowUpOf)
    ensures r.Ok? ==> Mapped(r.value.risks, KeptEntries(data, "Risks", IsEntryObject), RiskOf)
    ensures r.Ok? ==> r.value.agenda == AgendaRows(data)
  {
    if !Storable(data) then Err("TypeError")
    else
      Ok(MeetingData(
        FieldOr(data, "Meeting Name", JStr("Untitled Meeting")),
        FieldOr(data, "Description", JStr("No description provided.")),
        transcript,
        FieldOr(data, "Summary", JStr("")),
        Rows(data, "Tasks", IsEntryObject, e => TaskOf(e, parse)),
        Rows(data, "Decisions", IsEntryObject, e => DecisionOf(e, parse, now)),
        Rows(data, "Questions", IsEntryObject, QuestionOf),
        Rows(data, "Insights", IsEntryObject, InsightOf),
        Rows(data, "Deadlines", IsEntryObject, e => DeadlineOf(e, parse)),
        Rows(data, "Attendees", IsEntryObject, AttendeeOf),
        Rows(data, "Follow-ups", IsEntryObject, FollowUpOf),
        Rows(data, "Risks", IsEntryObject, RiskOf),
        AgendaRows(data)))
  }

  /** Every field that has a truthy default is truthy, and every agenda item is a
      non-empty string: no falsy value reaches the database where a default exists. */
  predicate DefaultsApplied(m: MeetingData) {
    Truthy(m.name) && Truthy(m.description)
    && (forall t :: t in m.tasks ==> Truthy(t.task) && Truthy(t.owner))
    && (forall d :: d in m.decisions ==> Truthy(d.decision))
    && (forall q :: q in m.questions ==> Truthy(q.question) && Truthy(q.status))
    && (forall n :: n in m.insights ==> Truthy(n.insight))
    && (forall d :: d in m.deadlines ==> Truthy(d.description))
    && (forall a :: a in m.attendees ==> Truthy(a.name) && Truthy(a.role))
    && (forall f :: f in m.followUps ==> Truthy(f.description) && Truthy(f.owner))
    && (forall k :: k in m.risks ==> Truthy(k.risk) && Truthy(k.impact))
    && (forall g :: g in m.agenda ==> g.item != "")
  }

  lemma StoredDefaultsApplied(data: Json, transcript: string, parse: DateParser, now: Instant)
    requires BuildMeeting(data, transcript, parse, now).Ok?
    ensures DefaultsApplied(BuildMeeting(data, transcript, parse, now).value)
  {
    var m := BuildMeeting(data, transcript, parse, now).value;
    forall g | g in m.agenda ensures g.item != "" {
      var i :| 0 <= i < |m.agenda| && m.agenda[i] == g;
      assert IsAgendaItem(KeptEntries(data, "Agenda", IsAgendaItem)[i]);
    }
  }

  /** `{}`, what an empty or missing reply parses to, gives every default and no rows. */
  lemma EmptyReplyDefaults(transcript: string, parse: DateParser, now: Instant)
    ensures BuildMeeting(JObj(map[]), transcript, parse, now)
         == Ok(MeetingData(JStr("Untitled Meeting"), JStr("No description provided."), transcript, JStr(""),
                           [], [], [], [], [], [], [], [], []))
  {
  }

  /** The example reply: one task owned by Bob, due "Wednesday", and one decision. */
  const BobTask: Json := JObj(map["description" := JStr("Write the doc"), "owner" := JStr("Bob"),
                                  "due_date" := JStr("Wednesday")])
  const ShipDecision: Json := JObj(map["description" := JStr("Ship on Friday")])
  const BobReply: Json := JObj(map["Tasks" := JArr([BobTask]), "Decisions" := JArr([ShipDecision])])

  /** The example reply holds two arrays and no other collection key, so it can be stored. */
  lemma BobReplyStorable()
    ensures Storable(BobReply)
    ensures KeptEntries(BobReply, "Tasks", IsEntryObject) == [BobTask]
    ensures KeptEntries(BobReply, "Decisions", IsEntryObject) == [ShipDecision]
  {
    assert Entries(BobReply, "Tasks") == Ok([BobTask]);
    assert Entries(BobReply, "Decisions") == Ok([ShipDecision]);
    FilterKeepsAll([BobTask], IsEntryObject);
    FilterKeepsAll([ShipDecision], IsEntryObject);
  }

  /** The example reply stores exactly one decision and one task, owned by Bob and
      dated when "Wednesday" parses. */
  lemma OneDecisionOneTask(transcript: string, parse: DateParser, now: Instant)
    requires parse(JStr("Wednesday")).Some?
    ensures var r := BuildMeeting(BobReply, transcript, parse, now);
            r.Ok? && |r.value.decisions| == 1 && |r.value.tasks| == 1
            && r.value.tasks[0].owner == JStr("Bob") && r.value.tasks[0].dueDate.Some?
  {
    BobReplyStorable();
    var r := BuildMeeting(BobReply, transcript, parse, now);
    assert r.value.tasks[0] == TaskOf(BobTask, parse);
  }

  // ----- the request -----

  /** `formData.get('audio')`: nothing, a plain text field, or an uploaded file;
      `Unreadable` when the body is not form data, so that `request.formData()`
      itself throws before any field is read. */
  datatype FormEntry = Unreadable | Absent | TextField(text: string) | FilePart(name: string)

  /** `!!file`. */
  predicate Present(f: FormEntry) {
    f.FilePart? || (f.TextField? && f.text != "")
  }

  /** `!!process.env.OPENAI_API_KEY`. */
  predicate Configured(apiKey: Option<string>) {
    apiKey.Some? && apiKey.value != ""
  }

  /** What the route's collaborators do on this request. */
  datatype Collaborators = Collaborators(
    staged: bool,                       // the upload directory and file were written
    transcript: Option<string>,         // the speech-to-text text; None when the call throws
    reply: Option<Option<string>>,      // the chat reply's content; None when the call throws
    parseJson: string -> Option<Json>,  // JSON.parse; None when it throws
    parseDate: DateParser,
    now: Instant,                       // `new Date()` while building the record, one instant for all rows
    created: bool)                      // the database write succeeded

  datatype Response = Created(meeting: MeetingData) | Failed(status: int, error: string)

  const NoFileError := "No audio file provided."
  const ProcessingError := "An error occurred during processing."

  /** `analyzedText || '{}'`. */
  function ReplyText(content: Option<string>): (t: string)
    ensures content.Some? && content.value != "" ==> t == content.value
    ensures content.None? || content.value == "" ==> t == "{}"
  {
    if content.Some? && content.value != "" then content.value else "{}"
  }

  /** The record the route stores when every step succeeds up to the write. */
  function Outcome(audio: FormEntry, apiKey: Option<string>, c: Collaborators): Option<MeetingData> {
    if Present(audio) && Configured(apiKey) && audio.FilePart? && c.staged
       && c.transcript.Some? && c.reply.Some? && c.parseJson(ReplyText(c.reply.value)).Some?
    then
      var built := BuildMeeting(c.parseJson(ReplyText(c.reply.value)).value, c.transcript.value, c.parseDate, c.now);
      if built.Ok? then Some(built.value) else None
    else None
  }

  /** POST /api/transcribe. A body that is not form data is a 500; a missing file
      is then a 400 before anything else happens; every later failure (no API key,
      a text field in place of a file, staging, either external call, an
      unparseable or unstorable reply, the write) is a 500 with the same generic
      body; otherwise the stored record is returned. */
  method Post(audio: FormEntry, apiKey: Option<string>, c: Collaborators) returns (resp: Response)
    ensures audio.Unreadable? ==> resp == Failed(500, ProcessingError)
    ensures resp.Failed? && resp.status == 400 <==> !audio.Unreadable? && !Present(audio)
    ensures resp.Failed? ==> resp.status in {400, 500}
    ensures resp.Failed? ==> resp.error == if resp.status == 400 then NoFileError else ProcessingError
    ensures Present(audio) && !Configured(apiKey) ==> resp == Failed(500, ProcessingError)
    ensures resp.Created? <==> Outcome(audio, apiKey, c).Some? && c.created
    ensures resp.Created? ==> resp.meeting == Outcome(audio, apiKey, c).value
    ensures resp.Created? ==> c.transcript.Some? && resp.meeting.rawTranscript == c.transcript.value
  {
    if audio.Unreadable? {
      return Failed(500, ProcessingError);
    }
    if !Present(audio) {
      return Failed(400, NoFileError);
    }
    if !Configured(apiKey) {
      return Failed(500, ProcessingError);
    }
    if !audio.FilePart? {
      // a text field has no arrayBuffer()
      return Failed(500, ProcessingError);
    }
    if !c.staged || c.transcript.None? || c.reply.None? {
      return Failed(500, ProcessingError);
    }
    var rawTranscript := c.transcript.value;
    var analyzed := c.parseJson(ReplyText(c.reply.value));
    if analyzed.None? {
      return Failed(500, ProcessingError);
    }
    var data := BuildMeeting(analyzed.value, rawTranscript, c.parseDate, c.now);
    if data.Err? || !c.created {
      return Failed(500, ProcessingError);
    }
    return Created(data.value);
  }
}

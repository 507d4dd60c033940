/** The meeting details view: the eight category cards built from the
    meeting's breakdown, the attendee list handed to the email dialog, and the
    name of the exported document. The export request and the rendering are
    outside the model. */
module MeetingDetails {
  import opened Wrappers
  import opened Json
  import opened Text

  /** One item of a category: an object's entries, in `Object.entries` order. */
  type CategoryItem = seq<(string, Json)>

  /** `item[key]`: the value of the first entry with that key, `undefined` (None)
      when there is none. */
  function Lookup(item: CategoryItem, key: string): (r: Option<Json>)
    ensures r.None? <==> forall j :: 0 <= j < |item| ==> item[j].0 != key
    ensures r.Some? ==> exists j :: 0 <= j < |item| && item[j] == (key, r.value)
                                    && forall k :: 0 <= k < j ==> item[k].0 != key
  {
    if item == [] then None
    else if item[0].0 == key then Some(item[0].1)
    else
      var r := Lookup(item[1..], key);
      assert r.Some? ==> exists j :: 0 < j < |item| && item[j] == (key, r.value)
                                     && forall k :: 0 <= k < j ==> item[k].0 != key by {
        if r.Some? {
          var j :| 0 <= j < |item[1..]| && item[1..][j] == (key, r.value)
                   && forall k :: 0 <= k < j ==> item[1..][k].0 != key;
          assert item[j + 1] == (key, r.value);
          assert forall k :: 0 <= k < j + 1 ==> item[k].0 != key by {
            forall k | 0 <= k < j + 1 ensures item[k].0 != key {
              if k > 0 {
                assert item[k] == item[1..][k - 1];
              }
            }
          }
        }
      }
      r
  }

  /** `data.breakdown`: the list under each key; a key that is missing, or whose
      value is `null` or `undefined`, is absent from the map. */
  type Breakdown = map<string, seq<CategoryItem>>

  /** `breakdown[key] || []`. */
  function ItemsOf(b: Breakdown, key: string): seq<CategoryItem> {
    if key in b then b[key] else []
  }

  datatype Category = Category(title: string, items: seq<CategoryItem>, gridSpan: string)

  const Titles: seq<string> :=
    ["Tasks", "Decisions", "Questions", "Insights", "Deadlines", "Attendees", "Follow-ups", "Risks"]

  /** The `categories` array: eight cards in a fixed order, each titled by the
      breakdown key it shows, its list empty when that key is absent; Deadlines
      and Attendees take one grid column, the others two. */
  function Categories(b: Breakdown): (r: seq<Category>)
    ensures |r| == |Titles| == 8
    ensures forall i :: 0 <= i < 8 ==> r[i].title == Titles[i]
    ensures forall i :: 0 <= i < 8 ==> r[i].items == (if Titles[i] in b then b[Titles[i]] else [])
    ensures forall i :: 0 <= i < 8 ==>
              (r[i].gridSpan == "col-span-1" <==> r[i].title == "Deadlines" || r[i].title == "Attendees")
    ensures forall i :: 0 <= i < 8 ==> r[i].gridSpan == "col-span-1" || r[i].gridSpan == "col-span-2"
  {
    [ Category("Tasks", ItemsOf(b, "Tasks"), "col-span-2"),
      Category("Decisions", ItemsOf(b, "Decisions"), "col-span-2"),
      Category("Questions", ItemsOf(b, "Questions"), "col-span-2"),
      Category("Insights", ItemsOf(b, "Insights"), "col-span-2"),
      Category("Deadlines", ItemsOf(b, "Deadlines"), "col-span-1"),
      Category("Attendees", ItemsOf(b, "Attendees"), "col-span-1"),
      Category("Follow-ups", ItemsOf(b, "Follow-ups"), "col-span-2"),
      Category("Risks", ItemsOf(b, "Risks"), "col-span-2") ]
  }

  /** An attendee as the email dialog receives it; `name` and `role` are copied
      as they are, `undefined` included. */
  datatype AttendeeRef = AttendeeRef(id: string, name: Option<Json>, role: Option<Json>)

  /** `meetingId-idx`. */
  function AttendeeId(meetingId: string, idx: nat): (id: string)
    ensures |id| > |meetingId| + 1
    ensures id[..|meetingId| + 1] == meetingId + "-"
    ensures id[|meetingId| + 1..] == Decimal(idx)
    ensures DecimalValue(id[|meetingId| + 1..]) == idx
  {
    var id := meetingId + "-" + Decimal(idx);
    assert id[|meetingId| + 1..] == Decimal(idx);
    DecimalRoundTrip(idx);
    id
  }

  /** `breakdown.Attendees.map((att, idx) => ...) || []`. The `|| []` applies to
      the result of `map`, so a missing Attendees list is not defaulted: reading
      `map` of `undefined` throws. */
  function AttendeeRefs(meetingId: string, b: Breakdown): (r: Result<seq<AttendeeRef>>)
    ensures r.Ok? <==> "Attendees" in b
    ensures r.Ok? ==> |r.value| == |b["Attendees"]|
    ensures r.Ok? ==> forall i :: 0 <= i < |r.value| ==>
              r.value[i].name == Lookup(b["Attendees"][i], "name")
              && r.value[i].role == Lookup(b["Attendees"][i], "role")
    ensures r.Ok? ==> forall i :: 0 <= i < |r.value| ==> r.value[i].id == AttendeeId(meetingId, i)
    ensures r.Ok? ==> forall i :: 0 <= i < |r.value| ==>
              |r.value[i].id| > |meetingId| + 1 && r.value[i].id[..|meetingId| + 1] == meetingId + "-"
  {
    if "Attendees" !in b then Err("Cannot read properties of undefined (reading 'map')")
    else
      var atts := b["Attendees"];
      Ok(seq(|atts|, i requires 0 <= i < |atts| =>
        AttendeeRef(AttendeeId(meetingId, i), Lookup(atts[i], "name"), Lookup(atts[i], "role"))))
  }

  /** Ids at distinct positions differ. */
  lemma IdsDistinct(meetingId: string, i: nat, j: nat)
    requires i != j
    ensures AttendeeId(meetingId, i) != AttendeeId(meetingId, j)
  {
    var n := |meetingId| + 1;
    assert DecimalValue(AttendeeId(meetingId, i)[n..]) != DecimalValue(AttendeeId(meetingId, j)[n..]);
  }

  /** The attendees handed to the email dialog have pairwise distinct ids. */
  lemma AttendeeIdsDistinct(meetingId: string, b: Breakdown, i: nat, j: nat)
    requires AttendeeRefs(meetingId, b).Ok?
    requires i < j < |AttendeeRefs(meetingId, b).value|
    ensures AttendeeRefs(meetingId, b).value[i].id != AttendeeRefs(meetingId, b).value[j].id
  {
    IdsDistinct(meetingId, i, j);
  }

  /** A breakdown without an Attendees list makes the view throw. */
  lemma MissingAttendeesThrow(meetingId: string)
    ensures AttendeeRefs(meetingId, map[]).Err?
  {
  }

  /** The evidently intended `(breakdown.Attendees || []).map(...)`: a missing list
      gives no attendees; a present one gives what the code as written gives. */
  function AttendeeRefsOrEmpty(meetingId: string, b: Breakdown): (r: seq<AttendeeRef>)
    ensures |r| == |ItemsOf(b, "Attendees")|
    ensures "Attendees" in b ==> AttendeeRefs(meetingId, b) == Ok(r)
    ensures "Attendees" !in b ==> r == []
    ensures forall i, j :: 0 <= i < j < |r| ==> r[i].id != r[j].id
  {
    var atts := ItemsOf(b, "Attendees");
    var r := seq(|atts|, i requires 0 <= i < |atts| =>
      AttendeeRef(AttendeeId(meetingId, i), Lookup(atts[i], "name"), Lookup(atts[i], "role")));
    assert forall i, j :: 0 <= i < j < |r| ==> r[i].id != r[j].id by {
      forall i, j | 0 <= i < j < |r| ensures r[i].id != r[j].id {
        IdsDistinct(meetingId, i, j);
      }
    }
    r
  }

  /** The exported document's name: the meeting name with each whitespace run
      replaced by `_`, then `_Details.docx`. */
  function ExportName(name: string): (n: string)
    ensures n == ReplaceSpaceRuns(name, '_') + "_Details.docx"
    ensures NoSpace(n)
    ensures |name| + 13 >= |n| >= 13 && n[|n| - 13..] == "_Details.docx"
    ensures Strip(n[..|n| - 13], '_') == Strip(name, '_')
    ensures NoSpace(name) ==> n == name + "_Details.docx"
  {
    var stem := ReplaceSpaceRuns(name, '_');
    ReplaceKeepsText(name, '_');
    ReplaceNoSpace(name, '_');
    ReplaceNoSpaceIdentity(name, '_');
    var n := stem + "_Details.docx";
    AppendParts(stem, "_Details.docx");
    assert |n| - 13 == |stem|;
    n
  }

  /** A whitespace run between two words of the meeting name, however long,
      becomes one `_` of the document name. */
  lemma ExportNameRun(a: string, w: string, b: string)
    requires a == [] || !IsSpace(a[|a| - 1])
    requires w != [] && AllSpace(w)
    requires b == [] || !IsSpace(b[0])
    ensures ExportName(a + w + b) == (ReplaceSpaceRuns(a, '_') + "_" + ReplaceSpaceRuns(b, '_')) + "_Details.docx"
  {
    RunBecomesOneChar(a, w, b, '_');
  }
}

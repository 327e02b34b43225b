/**
 * The company activity feed: the label of each audit action, the time shown
 * for an entry, the detail lines, and the empty-feed message.
 */
module ActivityFeed {

  import opened Wrappers
  import opened Forms
  import Text
  import Dates

  /** ACTION_LABELS. */
  const ActionLabels: map<string, string> := map[
    "submit_questionnaire" := "Questionnaire submitted",
    "invite_sent" := "Invite sent",
    "invite_accepted" := "Invite accepted",
    "update_response" := "Responses updated",
    "asset_upload_requested" := "Asset upload requested",
    "access_request" := "Access requested",
    "secret_created" := "Secret stored"
  ]

  /** `formatLabel`: the fixed label of a known action, else the action with every underscore turned into a space. */
  function FormatLabel(action: string): (r: string)
    ensures action in ActionLabels ==> r == ActionLabels[action]
    ensures action !in ActionLabels ==> |r| == |action| && '_' !in r
    ensures action !in ActionLabels ==> forall i :: 0 <= i < |action| && action[i] != '_' ==> r[i] == action[i]
  {
    if action in ActionLabels then ActionLabels[action]
    else
      Text.ReplaceAll(action, '_', ' ')
  }

  /** `formatDate`: the localized date and time, or the input itself when it is not a date. */
  function FormatDate(s: string, locale: Dates.DateLocale): (r: string)
    ensures !locale.isValid(s) ==> r == s
    ensures locale.isValid(s) ==> r == locale.dateTime(s)
  {
    if locale.isValid(s) then locale.dateTime(s) else s
  }

  /** `String(value)` for a stored JSON value. */
  function ValueText(v: Value): (t: string)
    ensures v.Str? ==> t == v.s
    ensures v.Bool? ==> (t == "true" <==> v.b) && (t == "false" <==> !v.b)
    ensures v.Num? ==> |t| > 0 && (t[0] == '-' <==> v.n < 0)
  {
    match v
    case Absent => "undefined"
    case Null => "null"
    case Str(s) => s
    case Num(n) => Dates.IntText(n)
    case Bool(b) => if b then "true" else "false"
    case List(items) => Text.Join(items, ",")
  }

  /** An audit entry as the feed receives it; `details` in the order `Object.entries` lists them. */
  datatype ActivityEntry = ActivityEntry(id: int, action: string, createdAt: string, details: Option<seq<(string, Value)>>)

  /** One rendered entry: heading, time, and the detail lines when there are details. */
  datatype EntryView = EntryView(title: string, time: string, details: Option<seq<(string, string)>>)

  /** The feed: the empty message, or one view per entry. */
  datatype FeedView = NoActivity(message: string) | Entries(entries: seq<EntryView>)

  const NoActivityMessage := "No activity recorded yet."

  /** A detail line: the key with every underscore turned into a space, and the value as text. */
  function DetailLine(d: (string, Value)): (line: (string, string))
    ensures |line.0| == |d.0| && '_' !in line.0
    ensures forall i :: 0 <= i < |d.0| ==> line.0[i] == (if d.0[i] == '_' then ' ' else d.0[i])
    ensures line.1 == ValueText(d.1)
  {
    (Text.ReplaceAll(d.0, '_', ' '), ValueText(d.1))
  }

  /** One entry as the feed shows it: its label, date and detail lines. */
  function ViewOf(e: ActivityEntry, locale: Dates.DateLocale): (v: EntryView)
    ensures v.title == FormatLabel(e.action) && v.time == FormatDate(e.createdAt, locale)
    ensures v.details.None? <==> e.details.None?
    ensures e.details.Some? ==>
      (|v.details.value| == |e.details.value|
       && forall i :: 0 <= i < |e.details.value| ==> v.details.value[i] == DetailLine(e.details.value[i]))
  {
    var details := if e.details.None? then None
                   else Some(seq(|e.details.value|, i requires 0 <= i < |e.details.value| => DetailLine(e.details.value[i])));
    EntryView(FormatLabel(e.action), FormatDate(e.createdAt, locale), details)
  }

  /** `ActivityFeed`: the empty message exactly when there is no entry, else one view per entry in order. */
  function Feed(entries: seq<ActivityEntry>, locale: Dates.DateLocale): (f: FeedView)
    ensures f.NoActivity? <==> entries == []
    ensures f.NoActivity? ==> f.message == NoActivityMessage
    ensures f.Entries? ==> |f.entries| == |entries| && forall i :: 0 <= i < |entries| ==> f.entries[i] == ViewOf(entries[i], locale)
  {
    if |entries| == 0 then NoActivity(NoActivityMessage)
    else Entries(seq(|entries|, i requires 0 <= i < |entries| => ViewOf(entries[i], locale)))
  }

  /** Every title in the feed is free of underscores, whether it is a fixed label or a formatted action. */
  lemma {:induction false} LabelsHaveNoUnderscore(action: string)
    ensures '_' !in FormatLabel(action)
  {
    if action in ActionLabels {
      var l := ActionLabels[action];
      assert l in ActionLabels.Values;
      LabelValuesHaveNoUnderscore();
    }
  }

  lemma LabelValuesHaveNoUnderscore()
    ensures forall l :: l in ActionLabels.Values ==> '_' !in l
  {
    forall l | l in ActionLabels.Values
      ensures '_' !in l
    {
      var a :| a in ActionLabels && ActionLabels[a] == l;
    }
  }
}

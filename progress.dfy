/**
  The helpers and the view state of the "My Progress" dashboard
  (`prototypes/ander_metrics/react-app/src/MyProgressDashboard.tsx`). The
  standalone copy `prototypes/ander_metrics/my_progress_dashboard.tsx`
  defines the same helpers with the same bodies; module ProgressDashboard
  models what only that copy has.
*/
module Progress {
  import opened Wrappers
  import opened Text
  import opened JsParse

  // ---------------------------------------------------------------------
  // Qualification status
  // ---------------------------------------------------------------------

  // The longer texts are written as two literals joined, so that the
  // verifier can look at their first characters.

  const KnownStatuses: set<string> := {"qualified", "at-risk", "not-qualified"}

  const QualifiedColor := "bg-green-50 " + "border-green-200 text-green-800"
  const AtRiskColor := "bg-yellow-50 " + "border-yellow-200 text-yellow-800"
  const NotQualifiedColor := "bg-orange-50 " + "border-orange-200 text-orange-800"
  const DefaultColor := "bg-gray-50 " + "border-gray-200 text-gray-800"

  /** `getStatusColor(status)`: the classes of a status card; any status
      other than the three known ones falls to the gray default. */
  function StatusColor(status: string): (r: string)
    ensures r == DefaultColor <==> status !in KnownStatuses
  {
    if status == "qualified" then QualifiedColor
    else if status == "at-risk" then AtRiskColor
    else if status == "not-qualified" then NotQualifiedColor
    else DefaultColor
  }

  /** Two statuses get the same classes exactly when they are the same
      known status or both unknown: the three known statuses are told apart. */
  lemma StatusColorDistinguishes(a: string, b: string)
    ensures StatusColor(a) == StatusColor(b) <==> a == b || (a !in KnownStatuses && b !in KnownStatuses)
  {
    assert QualifiedColor[3] != AtRiskColor[3] && AtRiskColor[3] != NotQualifiedColor[3];
    assert QualifiedColor[3] != NotQualifiedColor[3];
  }

  /** The record `getStatusMessage` reads: a month of the qualification data. */
  datatype MonthStatus = MonthStatus(month: string, status: string, completed: int, total: int)

  /** The cards still to complete, `total - completed`. */
  function Remaining(d: MonthStatus): int {
    d.total - d.completed
  }

  const QualifiedLead := "Great work! " + "You've completed all required training for "
  const AtRiskLead := "You're almost there! "
  const AtRiskTail := " Required Cards " + "left to complete by Dec 31."
  const BehindLead := "You have "
  const BehindTail := " Required Cards " + "to complete. Let's get caught up!"

  /** The opening words of the message for a status that is not 'qualified'. */
  function CountLead(status: string): string {
    if status == "at-risk" then AtRiskLead else BehindLead
  }

  /** `getStatusMessage(data)`. Its opening words tell which of the three
      branches produced it. */
  function StatusMessage(d: MonthStatus): (r: string)
    ensures QualifiedLead <= r <==> d.status == "qualified"
    ensures AtRiskLead <= r <==> d.status == "at-risk"
    ensures BehindLead <= r <==> d.status !in {"qualified", "at-risk"}
  {
    if d.status == "qualified" then
      var r := QualifiedLead + (d.month + ".");
      assert r[..|QualifiedLead|] == QualifiedLead && r[0] == 'G';
      r
    else if d.status == "at-risk" then
      var r := AtRiskLead + (IntToString(Remaining(d)) + AtRiskTail);
      assert r[..|AtRiskLead|] == AtRiskLead && r[0] == 'Y' && r[3] == '\'';
      r
    else
      var r := BehindLead + (IntToString(Remaining(d)) + BehindTail);
      assert r[..|BehindLead|] == BehindLead && r[0] == 'Y' && r[3] == ' ';
      r
  }

  /** For every status but 'qualified', the number after the opening words
      reads back as `total - completed`. */
  lemma StatusMessageReportsRemaining(d: MonthStatus)
    requires d.status != "qualified"
    ensures CountLead(d.status) <= StatusMessage(d)
    ensures ParseInt(StatusMessage(d)[|CountLead(d.status)|..]) == Some(Remaining(d))
  {
    var lead := CountLead(d.status);
    var tail := if d.status == "at-risk" then AtRiskTail else BehindTail;
    var m := StatusMessage(d);
    assert m == lead + (IntToString(Remaining(d)) + tail);
    assert tail[0] == ' ';
    assert m[|lead|..] == IntToString(Remaining(d)) + tail;
    ParseIntPrefix(Remaining(d), tail);
  }

  /** The 'qualified' message names the month and no count: it does not
      depend on `completed` or `total`, and it ends with the month. */
  lemma QualifiedMessageHasNoCount(d: MonthStatus, e: MonthStatus)
    requires d.status == "qualified" && e.status == "qualified" && d.month == e.month
    ensures StatusMessage(d) == StatusMessage(e)
    ensures StatusMessage(d)[|QualifiedLead|..] == d.month + "."
  {
  }

  // ---------------------------------------------------------------------
  // Rank tables
  // ---------------------------------------------------------------------

  const MarbleEmoji := "\U{26AA}"
  const MarbleGradient := "from-gray-100 to-gray-300"

  /** The `ranks` object literal of `getRankEmoji`. */
  const RankEmojis: map<string, string> := map[
    "Obsidian" := "\U{1F48E}",
    "Marble" := MarbleEmoji,
    "Granite" := "\U{1F7E4}",
    "Limestone" := "\U{1F7E1}",
    "Sandstone" := "\U{1F7E0}"]

  /** The `colors` object literal of `getRankColor`. */
  const RankColors: map<string, string> := map[
    "Obsidian" := "from-purple-900 to-black",
    "Marble" := MarbleGradient,
    "Granite" := "from-amber-800 to-amber-950",
    "Limestone" := "from-yellow-200 to-yellow-400",
    "Sandstone" := "from-orange-300 to-orange-500"]

  /** What `obj[key]` yields on an object literal: an own string property,
      a member inherited from `Object.prototype` (a function, or the
      prototype object itself for `__proto__`), or `undefined`. */
  datatype JsValue = JsString(s: string) | JsFunction(name: string) | JsObject | JsUndefined

  /** The property names every object literal inherits from
      `Object.prototype` (section 20.1.3 of ECMA-262, with Annex B). */
  const ObjectPrototypeMembers: set<string> := {
    "constructor", "hasOwnProperty", "isPrototypeOf", "propertyIsEnumerable",
    "toLocaleString", "toString", "valueOf", "__proto__",
    "__defineGetter__", "__defineSetter__", "__lookupGetter__", "__lookupSetter__"}

  /** `table[key]` on an object literal whose own properties are `table`. */
  function PropertyOf(table: map<string, string>, key: string): JsValue {
    if key in table then JsString(table[key])
    else if key == "__proto__" then JsObject
    else if key in ObjectPrototypeMembers then JsFunction(key)
    else JsUndefined
  }

  /** JavaScript truthiness of a property value. */
  predicate JsTruthy(v: JsValue) {
    match v
    case JsString(s) => s != []
    case JsUndefined => false
    case _ => true
  }

  /** `table[key] || fallback`, as written. */
  function LookupOrAsWritten(table: map<string, string>, key: string, fallback: string): (r: JsValue)
    requires fallback != []
    requires forall k :: k in table ==> table[k] != []
    requires forall k :: k in table ==> k !in ObjectPrototypeMembers
    ensures r.JsString? <==> key !in ObjectPrototypeMembers
  {
    var v := PropertyOf(table, key);
    if JsTruthy(v) then v else JsString(fallback)
  }

  /** The lookup the tables are meant for: an own property, else the
      fallback. */
  function LookupOr(table: map<string, string>, key: string, fallback: string): (r: string)
    ensures key in table ==> r == table[key]
    ensures key !in table ==> r == fallback
  {
    if key in table then table[key] else fallback
  }

  /** The lookup as written agrees with the intended one exactly on the keys
      that are not inherited from `Object.prototype`; on an inherited key it
      yields a function (or the prototype object), not a string. */
  lemma LookupAsWrittenDiffers(table: map<string, string>, key: string, fallback: string)
    requires fallback != []
    requires forall k :: k in table ==> table[k] != []
    requires forall k :: k in table ==> k !in ObjectPrototypeMembers
    ensures LookupOrAsWritten(table, key, fallback) == JsString(LookupOr(table, key, fallback))
        <==> key !in ObjectPrototypeMembers
  {
  }

  /** `getRankEmoji(rank)` as written. */
  function RankEmojiAsWritten(rank: string): (r: JsValue)
    ensures r.JsString? <==> rank !in ObjectPrototypeMembers
  {
    LookupOrAsWritten(RankEmojis, rank, MarbleEmoji)
  }

  /** `getRankColor(rank)` as written. */
  function RankColorAsWritten(rank: string): (r: JsValue)
    ensures r.JsString? <==> rank !in ObjectPrototypeMembers
  {
    LookupOrAsWritten(RankColors, rank, MarbleGradient)
  }

  /** The rank "constructor" does not get the fallback emoji or gradient but
      the `Object` constructor function. */
  lemma RankLookupAsWrittenConstructor()
    ensures RankEmojiAsWritten("constructor") == JsFunction("constructor")
    ensures RankColorAsWritten("constructor") == JsFunction("constructor")
    ensures RankEmojiAsWritten("constructor") != JsString(MarbleEmoji)
  {
  }

  /** `getRankEmoji(rank)` with the lookup the table is meant for. */
  function RankEmoji(rank: string): (r: string)
    ensures r != []
  {
    LookupOr(RankEmojis, rank, MarbleEmoji)
  }

  /** `getRankColor(rank)` with the lookup the table is meant for. */
  function RankColor(rank: string): (r: string)
    ensures r != []
  {
    LookupOr(RankColors, rank, MarbleGradient)
  }

  /** A rank gets Marble's emoji exactly when it is Marble or unknown; the
      five known ranks get five different emoji. */
  lemma RankEmojiFallsBackToMarble(rank: string, other: string)
    ensures RankEmoji(rank) == MarbleEmoji <==> rank == "Marble" || rank !in RankEmojis
    ensures rank in RankEmojis && other in RankEmojis && RankEmoji(rank) == RankEmoji(other) ==> rank == other
  {
  }

  /** A rank gets Marble's gradient exactly when it is Marble or unknown; the
      five known ranks get five different gradients. */
  lemma RankColorFallsBackToMarble(rank: string, other: string)
    ensures RankColor(rank) == MarbleGradient <==> rank == "Marble" || rank !in RankColors
    ensures rank in RankColors && other in RankColors && RankColor(rank) == RankColor(other) ==> rank == other
  {
    assert RankColors["Obsidian"][5] == 'p' && RankColors["Granite"][5] == 'a';
    assert RankColors["Limestone"][5] == 'y' && RankColors["Sandstone"][5] == 'o';
    assert MarbleGradient[5] == 'g';
  }

  /** The intended lookups agree with the lookups as written on every rank
      that is not a member inherited from `Object.prototype`, and the two
      tables fall back together: a rank gets Marble's emoji exactly when it
      gets Marble's gradient. */
  lemma RankLookupsAgree(rank: string)
    ensures RankEmojiAsWritten(rank) == JsString(RankEmoji(rank)) <==> rank !in ObjectPrototypeMembers
    ensures RankColorAsWritten(rank) == JsString(RankColor(rank)) <==> rank !in ObjectPrototypeMembers
    ensures RankEmoji(rank) == MarbleEmoji <==> RankColor(rank) == MarbleGradient
  {
    LookupAsWrittenDiffers(RankEmojis, rank, MarbleEmoji);
    LookupAsWrittenDiffers(RankColors, rank, MarbleGradient);
    RankEmojiFallsBackToMarble(rank, rank);
    RankColorFallsBackToMarble(rank, rank);
    assert RankEmojis.Keys == RankColors.Keys;
  }

  // ---------------------------------------------------------------------
  // Time
  // ---------------------------------------------------------------------

  /** `formatTime({hours, minutes})`: `"<hours>h <minutes>m"`, no padding. */
  function FormatTime(hours: int, minutes: int): (r: string)
    ensures r != [] && (r[0] == '0' ==> hours == 0)
  {
    IntToString(hours) + "h " + IntToString(minutes) + "m"
  }

  /** Both numbers read back from the rendered time: the hours at the start
      and the minutes after "h ". */
  lemma FormatTimeReadsBack(hours: int, minutes: int)
    ensures ParseInt(FormatTime(hours, minutes)) == Some(hours)
    ensures |IntToString(hours)| + 2 <= |FormatTime(hours, minutes)|
    ensures ParseInt(FormatTime(hours, minutes)[|IntToString(hours)| + 2..]) == Some(minutes)
  {
    var h := IntToString(hours);
    var m := IntToString(minutes);
    var r := FormatTime(hours, minutes);
    assert r == h + ("h " + m + "m");
    ParseIntPrefix(hours, "h " + m + "m");
    assert r[|h| + 2..] == m + "m";
    ParseIntPrefix(minutes, "m");
  }

  // ---------------------------------------------------------------------
  // Knowledge trend
  // ---------------------------------------------------------------------

  /** The values `trendView` takes. */
  datatype TrendView = Week | Month | Year

  /** A point of a trend series: the learner's accuracy rate and the
      district average. */
  datatype TrendPoint = TrendPoint(date: string, ar: int, avg: int)

  /** `trendData[view]`. Every series has at least two points, ends at
      today's accuracy rate of 87 and a district average of 76. */
  function TrendSeries(view: TrendView): (series: seq<TrendPoint>)
    ensures |series| >= 2
    ensures series[|series| - 1].ar == 87 && series[|series| - 1].avg == 76
  {
    match view
    case Week => [
      TrendPoint("Nov 20", 82, 75), TrendPoint("Nov 21", 83, 75), TrendPoint("Nov 22", 84, 76),
      TrendPoint("Nov 23", 85, 76), TrendPoint("Nov 24", 84, 75), TrendPoint("Nov 25", 86, 76),
      TrendPoint("Today", 87, 76)]
    case Month => [
      TrendPoint("Week 1", 80, 74), TrendPoint("Week 2", 82, 74), TrendPoint("Week 3", 85, 75),
      TrendPoint("Week 4", 87, 76)]
    case Year => [
      TrendPoint("Jan", 70, 72), TrendPoint("Mar", 74, 73), TrendPoint("May", 78, 74),
      TrendPoint("Jul", 80, 74), TrendPoint("Sep", 83, 75), TrendPoint("Nov", 87, 76)]
  }

  /** The timeframe words of the insight. */
  function Timeframe(view: TrendView): string {
    match view
    case Week => "this week"
    case Month => "this month"
    case Year => "this year"
  }

  /** `latest - previous`: the last accuracy rate minus the one before it. */
  function Change(series: seq<TrendPoint>): int
    requires |series| >= 2
  {
    series[|series| - 1].ar - series[|series| - 2].ar
  }

  const ImproveLead := "\U{1F4C8} +"
  const ImproveTail := "% improvement "
  const DeclineLead := "\U{1F4C9} -"
  const DeclineTail := "% decrease "
  const StableLead := "\U{2192} Stable knowledge "

  /** The insight for a series shown under the view `view`. */
  function Insight(series: seq<TrendPoint>, view: TrendView): (r: string)
    requires |series| >= 2
    ensures EndsWith(r, Timeframe(view))
  {
    var change := Change(series);
    if change > 0 then ImproveLead + IntToString(change) + ImproveTail + Timeframe(view)
    else if change < 0 then DeclineLead + IntToString(-change) + DeclineTail + Timeframe(view)
    else StableLead + Timeframe(view)
  }

  /** `getTrendInsight()` for the selected view. */
  function TrendInsight(view: TrendView): (r: string)
    ensures EndsWith(r, Timeframe(view))
  {
    Insight(TrendSeries(view), view)
  }

  /** The insight's opening tells the sign of the last change, the number in
      it reads back as the size of the change, and it ends with the
      timeframe of the view. */
  lemma InsightReportsChange(series: seq<TrendPoint>, view: TrendView)
    requires |series| >= 2
    ensures ImproveLead <= Insight(series, view) <==> Change(series) > 0
    ensures DeclineLead <= Insight(series, view) <==> Change(series) < 0
    ensures StableLead <= Insight(series, view) <==> Change(series) == 0
    ensures Change(series) > 0 ==> ParseInt(Insight(series, view)[|ImproveLead|..]) == Some(Change(series))
    ensures Change(series) < 0 ==> ParseInt(Insight(series, view)[|DeclineLead|..]) == Some(-Change(series))
    ensures Change(series) == 0 ==> Insight(series, view) == StableLead + Timeframe(view)
    ensures EndsWith(Insight(series, view), Timeframe(view))
  {
    var change := Change(series);
    var r := Insight(series, view);
    var t := Timeframe(view);
    if change > 0 {
      Framed(ImproveLead, change, ImproveTail, t);
      assert r[0] != DeclineLead[0] && r[0] != StableLead[0];
    } else if change < 0 {
      Framed(DeclineLead, -change, DeclineTail, t);
      assert r[0] != ImproveLead[0] && r[0] != StableLead[0];
    } else {
      assert r == StableLead + t;
      assert r[..|StableLead|] == StableLead;
      assert r[|r| - |t|..] == t;
      assert r[0] != ImproveLead[0] && r[0] != DeclineLead[0];
    }
  }

  /** A number set between fixed words reads back after the opening words,
      and the text ends with its closing words. */
  lemma Framed(lead: string, n: int, middle: string, tail: string)
    requires middle != [] && EndsNumber(middle)
    ensures |lead| <= |lead + IntToString(n) + middle + tail|
    ensures (lead + IntToString(n) + middle + tail)[..|lead|] == lead
    ensures ParseInt((lead + IntToString(n) + middle + tail)[|lead|..]) == Some(n)
    ensures EndsWith(lead + IntToString(n) + middle + tail, tail)
  {
    var r := lead + IntToString(n) + middle + tail;
    assert r == lead + (IntToString(n) + (middle + tail));
    assert r[|lead|..] == IntToString(n) + (middle + tail);
    ParseIntPrefix(n, middle + tail);
    assert r[|r| - |tail|..] == tail;
  }

  /** A text ends with the timeframe of at most one view: the three end in
      different letters. */
  lemma TimeframesDiffer(s: string, view: TrendView, other: TrendView)
    requires EndsWith(s, Timeframe(view)) && EndsWith(s, Timeframe(other))
    ensures view == other
  {
    var t, u := Timeframe(view), Timeframe(other);
    assert s[|s| - 1] == t[|t| - 1];
    assert s[|s| - 1] == u[|u| - 1];
  }

  /** An insight ends with the timeframe of one view only. */
  lemma InsightNamesItsView(series: seq<TrendPoint>, view: TrendView, other: TrendView)
    requires |series| >= 2
    ensures EndsWith(Insight(series, view), Timeframe(other)) <==> other == view
  {
    InsightReportsChange(series, view);
    if EndsWith(Insight(series, view), Timeframe(other)) {
      TimeframesDiffer(Insight(series, view), view, other);
    }
  }

  /** With the dashboard's data every view reports an improvement. */
  lemma EveryViewImproves(view: TrendView)
    ensures ImproveLead <= TrendInsight(view)
  {
    var s := TrendSeries(view);
    assert Change(s) > 0;
    InsightReportsChange(s, view);
  }

  // ---------------------------------------------------------------------
  // View state
  // ---------------------------------------------------------------------

  /** `expandedSP === id ? null : id`: clicking the strategic project `id`
      closes it when it is the open one and opens it, alone, otherwise. */
  function ToggledSP(expanded: Option<int>, id: int): (r: Option<int>)
    ensures r == Some(id) <==> expanded != Some(id)
    ensures r == None || r == Some(id)
  {
    if expanded == Some(id) then None else Some(id)
  }

  /** Clicking the same project twice restores the previous state exactly
      when nothing or that project was open before; with another project
      open, two clicks leave everything closed. */
  lemma ToggleTwice(expanded: Option<int>, id: int)
    ensures ToggledSP(ToggledSP(expanded, id), id) == expanded <==> expanded == None || expanded == Some(id)
    ensures expanded != None && expanded != Some(id) ==> ToggledSP(ToggledSP(expanded, id), id) == None
  {
  }

  /** The open project after a series of clicks. */
  function AfterClicks(expanded: Option<int>, ids: seq<int>): Option<int>
    decreases |ids|
  {
    if ids == [] then expanded else AfterClicks(ToggledSP(expanded, ids[0]), ids[1..])
  }

  /** After clicks, only the last clicked project can be open, or the
      initial one when there were none; clicking one project `n` times
      leaves it open exactly when `n` is odd (from a closed state). */
  lemma {:induction false} ClicksOpenOnlyTheLast(expanded: Option<int>, ids: seq<int>)
    decreases |ids|
    ensures ids == [] ==> AfterClicks(expanded, ids) == expanded
    ensures ids != [] ==> AfterClicks(expanded, ids) in {None, Some(ids[|ids| - 1])}
  {
    if |ids| > 1 {
      ClicksOpenOnlyTheLast(ToggledSP(expanded, ids[0]), ids[1..]);
    }
  }

  /** Clicking the same project `n` times from a closed state. */
  lemma {:induction false} RepeatedClicks(id: int, n: nat)
    ensures AfterClicks(None, seq(n, _ => id)) == if n % 2 == 1 then Some(id) else None
  {
    if n > 0 {
      var ids := seq(n, _ => id);
      assert ids[1..] == seq(n - 1, _ => id);
      if n > 1 {
        RepeatedClicks(id, n - 2);
        assert ids[1..][1..] == seq(n - 2, _ => id);
      } else {
        assert ids[1..] == [];
      }
    }
  }

  /** The component's state: the open strategic project, whether the
      qualification history is shown, and the trend view. */
  class ProgressView {
    var expandedSP: Option<int>
    var expandedHistory: bool
    var trendView: TrendView

    /** The initial state: nothing open, the week view. */
    constructor ()
      ensures expandedSP == None && !expandedHistory && trendView == Week
    {
      expandedSP := None;
      expandedHistory := false;
      trendView := Week;
    }

    /** The header button of strategic project `id`. */
    method ClickProject(id: int)
      modifies this
      ensures expandedSP == ToggledSP(old(expandedSP), id)
      ensures expandedHistory == old(expandedHistory) && trendView == old(trendView)
    {
      expandedSP := ToggledSP(expandedSP, id);
    }

    /** The "View History" button. */
    method ClickHistory()
      modifies this
      ensures expandedHistory == !old(expandedHistory)
      ensures expandedSP == old(expandedSP) && trendView == old(trendView)
    {
      expandedHistory := !expandedHistory;
    }

    /** One of the week, month and year buttons. */
    method SelectTrendView(view: TrendView)
      modifies this
      ensures trendView == view
      ensures expandedSP == old(expandedSP) && expandedHistory == old(expandedHistory)
    {
      trendView := view;
    }

    /** The insight line for the selected view. */
    function CurrentInsight(): (r: string)
      reads this
      ensures EndsWith(r, Timeframe(trendView))
    {
      InsightReportsChange(TrendSeries(trendView), trendView);
      TrendInsight(trendView)
    }
  }
}

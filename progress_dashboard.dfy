/**
  What the standalone "My Progress" dashboard
  (`prototypes/ander_metrics/my_progress_dashboard.tsx`) adds to the helpers
  it shares with the react-app copy (module Progress): the result marker of a
  strategic project, the target and district-average lines, the rank note,
  the question details, and the expand/close state.
*/
module ProgressDashboard {
  import opened Wrappers
  import opened Text
  import opened JsParse
  import opened Progress

  // ---------------------------------------------------------------------
  // Strategic project results
  // ---------------------------------------------------------------------

  const PerfectMark := "\U{2705}"
  const PassMark := "\U{2713}"
  const BelowMark := "\U{25CB}"

  /** `sp.correct === sp.total ? '✅' : sp.correct >= sp.total * 0.7 ? '✓' : '○'`,
      with the 70% threshold as the integer test `10 * correct >= 7 * total`. */
  function SpMarker(correct: int, total: int): (r: string)
    ensures r == PerfectMark <==> correct == total
    ensures r == PassMark <==> correct != total && 10 * correct >= 7 * total
    ensures r == BelowMark <==> correct != total && 10 * correct < 7 * total
  {
    if correct == total then PerfectMark
    else if 10 * correct >= 7 * total then PassMark
    else BelowMark
  }

  /** The marker's rank: below the threshold, at or above it, all correct. */
  function MarkerLevel(mark: string): nat {
    if mark == PerfectMark then 2 else if mark == PassMark then 1 else 0
  }

  /** Up to a full score, more correct answers never give a lower marker. */
  lemma MarkerMonotone(c1: int, c2: int, total: int)
    requires c1 <= c2 <= total
    ensures MarkerLevel(SpMarker(c1, total)) <= MarkerLevel(SpMarker(c2, total))
  {
  }

  /** The header line `{marker} {sp.correct}/{sp.total} correct`. */
  function SpScore(correct: int, total: int): (line: string)
    ensures SpMarker(correct, total) <= line
    ensures EndsWith(line, " correct")
  {
    SpMarker(correct, total) + " " + IntToString(correct) + "/" + IntToString(total) + " correct"
  }

  /** Both counts read back from the header line: `correct` after the marker
      and `total` after the slash. */
  lemma SpScoreReadsBack(correct: int, total: int)
    ensures ParseInt(SpScore(correct, total)[|SpMarker(correct, total) + " "|..]) == Some(correct)
    ensures ParseInt(SpScore(correct, total)[|SpMarker(correct, total) + " " + IntToString(correct) + "/"|..]) == Some(total)
  {
    var line := SpScore(correct, total);
    var lead := SpMarker(correct, total) + " ";
    var c := IntToString(correct);
    var t := IntToString(total);
    assert line == lead + c + "/" + (t + " correct");
    Framed(lead, correct, "/", t + " correct");
    var lead2 := lead + c + "/";
    assert line == lead2 + t + " correct" + "";
    Framed(lead2, total, " correct", "");
  }

  // ---------------------------------------------------------------------
  // Knowledge lines
  // ---------------------------------------------------------------------

  const MinimumTarget := 70
  const TargetLead := "\U{1F3AF} You're "
  const TargetTail := "% above the minimum target"
  const AboveAverageLine := "\U{1F3C6} You're performing " + "above district average!"

  /** The line under the trend insight for a rate above the 70% target. */
  function AboveTargetLine(currentAR: int): (r: Option<string>)
    ensures r.Some? <==> currentAR > MinimumTarget
  {
    if currentAR > MinimumTarget then Some(TargetLead + IntToString(currentAR - MinimumTarget) + TargetTail)
    else None
  }

  /** The target line states by how much the rate exceeds the target, a
      positive number. */
  lemma AboveTargetStatesMargin(currentAR: int)
    requires currentAR > MinimumTarget
    ensures TargetLead <= AboveTargetLine(currentAR).value
    ensures ParseInt(AboveTargetLine(currentAR).value[|TargetLead|..]) == Some(currentAR - MinimumTarget)
    ensures currentAR - MinimumTarget > 0
  {
    var margin := currentAR - MinimumTarget;
    var line := TargetLead + IntToString(margin) + TargetTail;
    assert line + "" == line;
    Framed(TargetLead, margin, TargetTail, "");
    assert AboveTargetLine(currentAR).value == line;
  }

  /** `currentAR > trendData[trendView][last].avg`: the district-average line
      is shown. Every series ends at a district average of 76, so the answer
      is the same for every view. */
  function AboveAverageShown(currentAR: int, view: TrendView): (shown: bool)
    ensures shown <==> currentAR > 76
  {
    var series := TrendSeries(view);
    currentAR > series[|series| - 1].avg
  }

  /** The lines under the trend chart: the insight, then the target line and
      the district-average line when they are shown. */
  function KnowledgeLines(currentAR: int, view: TrendView): (lines: seq<string>)
    ensures 1 <= |lines| <= 3 && lines[0] == TrendInsight(view)
  {
    [TrendInsight(view)]
    + (if currentAR > MinimumTarget then [AboveTargetLine(currentAR).value] else [])
    + (if AboveAverageShown(currentAR, view) then [AboveAverageLine] else [])
  }

  /** The insight comes first; the target line follows exactly when the rate
      is above 70 and the average line comes last exactly when it is above
      the district average. */
  lemma KnowledgeLinesShape(currentAR: int, view: TrendView)
    ensures KnowledgeLines(currentAR, view)[0] == TrendInsight(view)
    ensures |KnowledgeLines(currentAR, view)| == 1 + (if currentAR > 70 then 1 else 0) + (if currentAR > 76 then 1 else 0)
    ensures AboveAverageLine in KnowledgeLines(currentAR, view) <==> currentAR > 76
    ensures currentAR > 70 ==> KnowledgeLines(currentAR, view)[1] == AboveTargetLine(currentAR).value
  {
    var lines := KnowledgeLines(currentAR, view);
    InsightReportsChange(TrendSeries(view), view);
    assert AboveAverageLine[0] != TrendInsight(view)[0];
    if currentAR > 70 {
      assert AboveAverageLine[0] != AboveTargetLine(currentAR).value[0];
    }
  }

  // ---------------------------------------------------------------------
  // Rank note
  // ---------------------------------------------------------------------

  const MarbleNote := "Only 3% away from Obsidian!"
  const ExpertNote := "Expert level knowledge!"

  /** The note under the rank card. */
  function RankNote(rank: string): (r: string)
    ensures r == MarbleNote <==> rank == "Marble"
    ensures r == ExpertNote <==> rank != "Marble"
  {
    if rank == "Marble" then MarbleNote else ExpertNote
  }

  /** The note that promises Obsidian is shown only with Marble's emoji and
      gradient; an unknown rank looks like Marble but gets the expert note. */
  lemma MarbleNoteMatchesLook(rank: string)
    ensures RankNote(rank) == MarbleNote ==> RankEmoji(rank) == MarbleEmoji && RankColor(rank) == MarbleGradient
    ensures rank !in RankEmojis ==> RankEmoji(rank) == MarbleEmoji && RankNote(rank) == ExpertNote
  {
    RankEmojiFallsBackToMarble(rank, rank);
    RankColorFallsBackToMarble(rank, rank);
  }

  // ---------------------------------------------------------------------
  // Question details
  // ---------------------------------------------------------------------

  /** A question of a strategic project; the optional texts are `undefined`
      when absent. */
  datatype Question = Question(
    text: string, correct: bool, answer: Option<string>, userAnswer: Option<string>,
    correctAnswer: Option<string>, explanation: Option<string>)

  /** A strategic project as the list shows it. */
  datatype SmartPractice = SmartPractice(id: int, date: string, correct: int, total: int, questions: seq<Question>)

  /** JavaScript truthiness of an optional text: present and not empty. */
  predicate Present(s: Option<string>) {
    s.Some? && s.value != []
  }

  const YourAnswerLead := "Your Answer: "

  /** `!q.correct && q.userAnswer && <div>Your Answer: …</div>`. */
  function YourAnswer(q: Question): (r: Option<string>)
    ensures r.Some? <==> !q.correct && Present(q.userAnswer)
    ensures r.Some? ==> YourAnswerLead <= r.value && r.value[|YourAnswerLead|..] == q.userAnswer.value
  {
    if !q.correct && Present(q.userAnswer) then
      var line := YourAnswerLead + q.userAnswer.value;
      assert line[..|YourAnswerLead|] == YourAnswerLead;
      Some(line)
    else None
  }

  /** `q.correctAnswer || q.answer`, as the text it renders (`undefined`
      renders as nothing). */
  function ShownAnswer(q: Question): (r: string)
    ensures Present(q.correctAnswer) ==> r == q.correctAnswer.value
    ensures !Present(q.correctAnswer) ==> r == q.answer.GetOr([])
  {
    if Present(q.correctAnswer) then q.correctAnswer.value else q.answer.GetOr([])
  }

  /** `{q.correct ? '✓' : '✅'} {q.correctAnswer || q.answer}`. */
  function AnswerLine(q: Question): (r: string)
    ensures |r| >= 2 && r[0] == (if q.correct then PassMark else PerfectMark)[0]
    ensures r[2..] == ShownAnswer(q)
  {
    (if q.correct then PassMark else PerfectMark) + " " + ShownAnswer(q)
  }

  /** An answer line shows the correct answer whenever the question has one,
      and otherwise the recorded answer; it never shows the learner's own. */
  lemma AnswerLineShowsCorrectAnswer(q: Question)
    ensures Present(q.correctAnswer) ==> AnswerLine(q)[2..] == q.correctAnswer.value
    ensures !Present(q.correctAnswer) && q.answer.Some? ==> AnswerLine(q)[2..] == q.answer.value
    ensures !Present(q.correctAnswer) && q.answer.None? ==> |AnswerLine(q)| == 2
  {
  }

  /** A `<span>`: its class attribute and its text. */
  datatype Span = Span(className: string, content: string)

  const CorrectIcon := "\U{2705}"
  const IncorrectIcon := "\U{274C}"

  /** `<span className={`text-lg ${q.correct ? '✅' : '❌'}`}></span>`, as
      written: the icon goes into the class attribute and the span is empty. */
  function QuestionIconAsWritten(q: Question): (r: Span)
    ensures r.content == []
  {
    Span("text-lg " + (if q.correct then CorrectIcon else IncorrectIcon), [])
  }

  /** The icon as the sibling answer line and the react-app copy show it: as
      the span's text. */
  function QuestionIcon(q: Question): (r: Span)
    ensures r.content == CorrectIcon <==> q.correct
    ensures r.content == IncorrectIcon <==> !q.correct
  {
    Span("text-lg", if q.correct then CorrectIcon else IncorrectIcon)
  }

  /** The written span shows nothing for any question, while its class
      carries exactly the icon the intended span shows. */
  lemma QuestionIconMisplaced(q: Question)
    ensures QuestionIconAsWritten(q).content == [] != QuestionIcon(q).content
    ensures QuestionIconAsWritten(q).className == QuestionIcon(q).className + " " + QuestionIcon(q).content
  {
  }

  const ExplanationLead := "\U{1F4A1} "

  /** The lines of one question's details: the icon span, which is empty as
      written, the question, the
      learner's answer when it is shown, the answer line, and the
      explanation when there is one. */
  function QuestionLines(q: Question): (lines: seq<string>)
    ensures 3 <= |lines| <= 5 && lines[1] == q.text
    ensures lines[|lines| - 1] == if Present(q.explanation) then ExplanationLead + q.explanation.value else AnswerLine(q)
  {
    [QuestionIconAsWritten(q).content, q.text]
    + (if YourAnswer(q).Some? then [YourAnswer(q).value] else [])
    + [AnswerLine(q)]
    + (if Present(q.explanation) then [ExplanationLead + q.explanation.value] else [])
  }

  /** The learner's answer is listed exactly for an incorrect question with
      a recorded answer, and the answer line always follows it. */
  lemma QuestionLinesShape(q: Question)
    ensures QuestionLines(q)[0] == [] && QuestionLines(q)[1] == q.text
    ensures |QuestionLines(q)| == 3 + (if YourAnswer(q).Some? then 1 else 0) + (if Present(q.explanation) then 1 else 0)
    ensures QuestionLines(q)[2] == (if !q.correct && Present(q.userAnswer) then YourAnswerLead + q.userAnswer.value else AnswerLine(q))
  {
  }

  // ---------------------------------------------------------------------
  // Expand / close
  // ---------------------------------------------------------------------

  /** `expandedSP === sp.id && sp.questions.length > 0`: the details panel
      of `sp` is rendered. */
  function DetailsShown(expanded: Option<int>, sp: SmartPractice): (shown: bool)
    ensures shown ==> expanded == Some(sp.id)
    ensures shown <==> expanded == Some(sp.id) && sp.questions != []
  {
    expanded == Some(sp.id) && |sp.questions| > 0
  }

  /** With distinct ids, at most one project shows its details; with nothing
      expanded, none does. */
  lemma AtMostOneDetailsPanel(expanded: Option<int>, sps: seq<SmartPractice>, i: int, j: int)
    requires forall a, b :: 0 <= a < b < |sps| ==> sps[a].id != sps[b].id
    requires 0 <= i < |sps| && 0 <= j < |sps|
    ensures DetailsShown(expanded, sps[i]) && DetailsShown(expanded, sps[j]) ==> i == j
    ensures expanded == None ==> !DetailsShown(expanded, sps[i])
  {
  }

  /** The standalone component's state. */
  class DashboardView {
    var expandedSP: Option<int>
    var expandedHistory: bool
    var trendView: TrendView

    /** The initial state: nothing open, the week view. */
    constructor ()
      ensures expandedSP == None && !expandedHistory && trendView == Week
    {
      expandedSP := None;
      expandedHistory := false;
      trendView := Week;
    }

    /** The header button of strategic project `id`. */
    method ClickProject(id: int)
      modifies this
      ensures expandedSP == ToggledSP(old(expandedSP), id)
      ensures expandedHistory == old(expandedHistory) && trendView == old(trendView)
    {
      expandedSP := ToggledSP(expandedSP, id);
    }

    /** The close button of a details panel. */
    method CloseDetails()
      modifies this
      ensures expandedSP == None
      ensures expandedHistory == old(expandedHistory) && trendView == old(trendView)
    {
      expandedSP := None;
    }

    /** The "View History" button. */
    method ClickHistory()
      modifies this
      ensures expandedHistory == !old(expandedHistory)
      ensures expandedSP == old(expandedSP) && trendView == old(trendView)
    {
      expandedHistory := !expandedHistory;
    }

    /** One of the week, month and year buttons. */
    method SelectTrendView(view: TrendView)
      modifies this
      ensures trendView == view
      ensures expandedSP == old(expandedSP) && expandedHistory == old(expandedHistory)
    {
      trendView := view;
    }

    /** Whether the details panel of `sp` is rendered in this state. */
    function ShowsDetails(sp: SmartPractice): (shown: bool)
      reads this
      ensures shown ==> expandedSP == Some(sp.id) && sp.questions != []
    {
      DetailsShown(expandedSP, sp)
    }
  }
}

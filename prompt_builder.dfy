/**
 * `build_prompt`: the single prompt that tells the language model which JSON
 * object to return. The prompt is a list of parts joined by a blank line; two of
 * the parts are themselves lists of lines joined by a newline: the instruction
 * block (with the JSON skeleton) and the block of extra rules.
 */
module PromptBuilder {
  import opened Wrappers
  import opened Strings

  /** The keyword arguments of `build_prompt`. */
  datatype PromptConfig = PromptConfig(
    transcript: string,
    meetingTitle: Option<string>,
    meetingDate: Option<string>,
    includeSpeakers: bool,
    includeSentiment: bool,
    includeTimeline: bool,
    language: string)

  /** Python truthiness of an optional string: present and non-empty. */
  predicate Given(o: Option<string>) {
    o.Some? && |o.value| > 0
  }

  /** A field of the JSON skeleton the model must fill in. */
  datatype Field = SummaryShort | SummaryDetailed | DiscussionFlow | Timeline | ActionItems | SpeakerSentiment

  /**
   * One line of the instruction block or of the block of extra rules. `Text`
   * gives its wording exactly as the prompt spells it; only the meeting-date line
   * carries data, the date, which it embeds verbatim.
   */
  datatype Line =
    // the instruction block
    | OnlyJson | TranscriptIsReal | ProduceStructure | OpenBrace | CloseBrace | DetailedSummary
    | SkeletonLine(field: Field)
    // speaker handling
    | PreserveSpeakers | IgnoreSpeakers
    // action-item rules
    | ExplicitVerbTasks | OneTaskEach | NoSplitting | MergeDuplicates | OwnerOrNull
    // deadline rules with a meeting date
    | RelativeToMeeting | MeetingDate(date: string)
    | SameWeekday | LaterSameWeek | NextWeekday | Tomorrow | DayAfterTomorrow | AbsoluteDate
    | NeverBeforeMeeting | ClampToMeeting | EarliestExplicit | NullWithoutDeadline | NoGuessing
    | StrictDateFormat
    // the deadline rule without one
    | ExplicitDeadlinesOnly
    // timeline, sentiment, closing
    | TimelineIfCues | NoTimeline | ClassifySentiment | NoSentiment | NoMarkdown

  /** The skeleton line of each field, verbatim. */
  function FieldText(f: Field): string {
    match f
    case SummaryShort => "  \"summary_short\": [\"...\"],"
    case SummaryDetailed => "  \"summary_detailed\": \"...\","
    case DiscussionFlow => "  \"discussion_flow\": [\"...\"],"
    case Timeline => "  \"timeline\": [{ \"timestamp\": \"MM:SS\", \"topic\": \"...\" }],"
    case ActionItems =>
      "  \"action_items\": [{ \"task\": \"...\", \"assigned_to\": \"...\", \"deadline\": \"YYYY-MM-DD|null\" }],"
    case SpeakerSentiment => "  \"speaker_sentiment\": { \"Speaker Name\": \"positive|neutral|negative\" }"
  }

  /** The wording of each line, verbatim. */
  function Text(l: Line): string {
    match l
    case OnlyJson => "You are an assistant that MUST produce ONLY valid JSON and nothing else."
    case TranscriptIsReal => "The input 'transcript' is a real meeting transcript."
    case ProduceStructure =>
      "You must produce the following JSON structure exactly (all fields must exist; empty is allowed):"
    case OpenBrace => "{"
    case CloseBrace => "}"
    case DetailedSummary => "For 'summary_detailed', write a detailed summary in 2\U{2013}3 separate paragraphs."
    case SkeletonLine(f) => FieldText(f)
    case PreserveSpeakers => "Preserve and use speaker labels found in the transcript (e.g., 'Alice:', 'Bob:')."
    case IgnoreSpeakers => "Ignore speaker labels."
    case ExplicitVerbTasks =>
      "Extract only clear, actionable tasks with an explicit verb (e.g., add, update, deploy, fix)."
    case OneTaskEach => "Each action item MUST represent exactly one unique task."
    case NoSplitting => "Do NOT split a single commitment into multiple tasks unless they are clearly different."
    case MergeDuplicates => "Merge overlapping or duplicate tasks into a single action item."
    case OwnerOrNull => "If ownership is mentioned, populate 'assigned_to'. Otherwise, set it to null."
    case RelativeToMeeting => "Compute all deadlines relative to the meeting date."
    case MeetingDate(date) => DateRuleLead + date + DateRuleTail
    case SameWeekday =>
      "WEEKDAY RESOLUTION (STRICT, NO EXCEPTIONS): "
      + "If a weekday name is mentioned WITHOUT the word 'next' "
      + "(e.g., 'Friday', 'by Friday', 'Friday morning'), "
      + "AND it matches the weekday of the meeting date, "
      + "you MUST use the MEETING DATE itself. "
      + "You are NOT allowed to move it to the next day or next week."
    case LaterSameWeek =>
      "If a weekday name is mentioned WITHOUT 'next' "
      + "and it occurs later in the SAME calendar week after the meeting date, "
      + "use that same-week date."
    case NextWeekday =>
      "If the phrase 'next <weekday>' is explicitly used "
      + "(e.g., 'next Friday'), resolve it to the weekday in the FOLLOWING week."
    case Tomorrow => "If someone says 'tomorrow', deadline = meeting date + 1 day."
    case DayAfterTomorrow => "If someone says 'day after tomorrow', deadline = meeting date + 2 days."
    case AbsoluteDate =>
      "If an absolute date is mentioned (e.g., '18/12/2025', 'December 18, 2025'), "
      + "convert it to strict YYYY-MM-DD format."
    case NeverBeforeMeeting => "Deadlines must NEVER be earlier than the meeting date."
    case ClampToMeeting => "If resolving a deadline places it before the meeting date, use the meeting date instead."
    case EarliestExplicit => "If multiple deadlines are mentioned for the same task, choose the earliest explicit one."
    case NullWithoutDeadline => "If no explicit or clearly inferable deadline exists, set deadline to null."
    case NoGuessing => "Do NOT guess or invent deadlines."
    case StrictDateFormat => "Always output deadlines in strict YYYY-MM-DD format."
    case ExplicitDeadlinesOnly =>
      "Only extract deadlines if explicitly mentioned. "
      + "Do NOT infer or guess dates without a meeting date. "
      + "If unclear, set deadline to null."
    case TimelineIfCues =>
      "Generate a timeline only if explicit timestamps or clear time cues exist. "
      + "Do NOT invent timestamps. If unreliable, return an empty array."
    case NoTimeline => "DO NOT generate a timeline field."
    case ClassifySentiment =>
      "For each speaker who speaks at least once, classify sentiment as positive, neutral, or negative."
    case NoSentiment => "DO NOT generate speaker_sentiment."
    case NoMarkdown => "Do not include markdown, explanations, or any text outside the JSON object."
  }

  /** The wording of each line of a block, in order. */
  function Render(lines: seq<Line>): (r: seq<string>)
    ensures |r| == |lines|
  {
    seq(|lines|, i requires 0 <= i < |lines| => Text(lines[i]))
  }

  const ActionItemRules: seq<Line> := [ExplicitVerbTasks, OneTaskEach, NoSplitting, MergeDuplicates, OwnerOrNull]

  /** The deadline rules when a meeting date is given, with the date in the second. */
  function DatedDeadlineRules(date: string): seq<Line> {
    [RelativeToMeeting, MeetingDate(date), SameWeekday, LaterSameWeek, NextWeekday, Tomorrow,
     DayAfterTomorrow, AbsoluteDate, NeverBeforeMeeting, ClampToMeeting, EarliestExplicit,
     NullWithoutDeadline, NoGuessing, StrictDateFormat]
  }

  /** The fixed text around the date in the meeting-date rule. */
  const DateRuleLead := "Treat the meeting date as "
  const DateRuleTail := " (YYYY-MM-DD)."

  const InstructionsHeader := "### INSTRUCTIONS ###"
  const TranscriptHeader := "### TRANSCRIPT ###"
  const LineBreak := "\n"
  const PartBreak := "\n\n"
  const TitleLead := "Meeting Title: "
  const DateLead := "Meeting Date: "
  const DateTail := " (YYYY-MM-DD)"

  function TitleHeader(title: string): string {
    TitleLead + title
  }

  function DateHeader(date: string): string {
    DateLead + date + DateTail
  }

  // ---------------------------------------------------------------- the prompt, declaratively

  /** The JSON skeleton: four fixed fields, with timeline and sentiment only when enabled. */
  function Skeleton(includeTimeline: bool, includeSentiment: bool): seq<Line> {
    [SkeletonLine(SummaryShort), SkeletonLine(SummaryDetailed), SkeletonLine(DiscussionFlow)]
    + (if includeTimeline then [SkeletonLine(Timeline)] else [])
    + [SkeletonLine(ActionItems)]
    + (if includeSentiment then [SkeletonLine(SpeakerSentiment)] else [])
  }

  /** The instruction block: three fixed lines, the skeleton in braces, the summary rule. */
  function InstructionLines(includeTimeline: bool, includeSentiment: bool): seq<Line> {
    [OnlyJson, TranscriptIsReal, ProduceStructure, OpenBrace]
    + Skeleton(includeTimeline, includeSentiment)
    + [CloseBrace, DetailedSummary]
  }

  function SpeakerRule(includeSpeakers: bool): Line {
    if includeSpeakers then PreserveSpeakers else IgnoreSpeakers
  }

  function DeadlineRules(meetingDate: Option<string>): seq<Line> {
    if Given(meetingDate) then DatedDeadlineRules(meetingDate.value) else [ExplicitDeadlinesOnly]
  }

  function TimelineRule(includeTimeline: bool): Line {
    if includeTimeline then TimelineIfCues else NoTimeline
  }

  function SentimentRule(includeSentiment: bool): Line {
    if includeSentiment then ClassifySentiment else NoSentiment
  }

  /** The block of extra rules, in the order the prompt states them. */
  function ExtraLines(c: PromptConfig): seq<Line> {
    [SpeakerRule(c.includeSpeakers)] + ActionItemRules + DeadlineRules(c.meetingDate)
    + [TimelineRule(c.includeTimeline)] + [SentimentRule(c.includeSentiment)] + [NoMarkdown]
  }

  /** The instruction block as one part: its lines joined by a newline. */
  function InstructionText(includeTimeline: bool, includeSentiment: bool): string {
    Join(Render(InstructionLines(includeTimeline, includeSentiment)), LineBreak)
  }

  /** The extra rules as one part: their lines joined by a newline. */
  function ExtraText(c: PromptConfig): string {
    Join(Render(ExtraLines(c)), LineBreak)
  }

  function TitleParts(meetingTitle: Option<string>): seq<string> {
    if Given(meetingTitle) then [TitleHeader(meetingTitle.value)] else []
  }

  function DateParts(meetingDate: Option<string>): seq<string> {
    if Given(meetingDate) then [DateHeader(meetingDate.value)] else []
  }

  /** The order of the parts once the headers are in: they go between the instructions and the extra rules. */
  function Layout(instructions: string, titles: seq<string>, dates: seq<string>, extra: string, transcript: string)
    : seq<string>
  {
    [InstructionsHeader, instructions] + titles + dates + [extra, TranscriptHeader, transcript]
  }

  /** The parts of the prompt, in the order they end up after the header insertions. */
  function PromptParts(c: PromptConfig): seq<string> {
    Layout(InstructionText(c.includeTimeline, c.includeSentiment), TitleParts(c.meetingTitle),
           DateParts(c.meetingDate), ExtraText(c), c.transcript)
  }

  /** The prompt `build_prompt` returns. */
  function PromptText(c: PromptConfig): string {
    Join(PromptParts(c), PartBreak)
  }

  // ---------------------------------------------------------------- build_prompt

  /** The JSON skeleton, built by appending. */
  method BuildJsonFields(includeTimeline: bool, includeSentiment: bool) returns (jsonFields: seq<Line>)
    ensures jsonFields == Skeleton(includeTimeline, includeSentiment)
  {
    jsonFields := [SkeletonLine(SummaryShort), SkeletonLine(SummaryDetailed), SkeletonLine(DiscussionFlow)];
    if includeTimeline {
      jsonFields := jsonFields + [SkeletonLine(Timeline)];
    }
    jsonFields := jsonFields + [SkeletonLine(ActionItems)];
    if includeSentiment {
      jsonFields := jsonFields + [SkeletonLine(SpeakerSentiment)];
    }
  }

  /** The block of extra rules, built by appending and extending. */
  method BuildExtraLines(c: PromptConfig) returns (extra: seq<Line>)
    ensures extra == ExtraLines(c)
  {
    extra := [];
    if c.includeSpeakers {
      extra := extra + [PreserveSpeakers];
    } else {
      extra := extra + [IgnoreSpeakers];
    }
    assert extra == [SpeakerRule(c.includeSpeakers)];
    extra := extra + ActionItemRules;
    ghost var sofar := extra;
    if Given(c.meetingDate) {
      extra := extra + DatedDeadlineRules(c.meetingDate.value);
    } else {
      extra := extra + [ExplicitDeadlinesOnly];
    }
    assert extra == sofar + DeadlineRules(c.meetingDate);
    sofar := extra;
    if c.includeTimeline {
      extra := extra + [TimelineIfCues];
    } else {
      extra := extra + [NoTimeline];
    }
    assert extra == sofar + [TimelineRule(c.includeTimeline)];
    sofar := extra;
    if c.includeSentiment {
      extra := extra + [ClassifySentiment];
    } else {
      extra := extra + [NoSentiment];
    }
    assert extra == sofar + [SentimentRule(c.includeSentiment)];
    extra := extra + [NoMarkdown];
  }

  /**
   * `build_prompt`: the instruction block around the skeleton, the extra rules,
   * the five initial parts, the title and date headers inserted at computed
   * positions, and the parts joined with a blank line.
   */
  method BuildPrompt(c: PromptConfig) returns (prompt: string)
    ensures prompt == PromptText(c)
    ensures StartsWith(prompt, InstructionsHeader + PartBreak)
    ensures EndsWith(prompt, PartBreak + TranscriptHeader + PartBreak + c.transcript)
  {
    var jsonFields := BuildJsonFields(c.includeTimeline, c.includeSentiment);
    var instructions := [OnlyJson, TranscriptIsReal, ProduceStructure, OpenBrace]
      + jsonFields + [CloseBrace, DetailedSummary];
    assert instructions == InstructionLines(c.includeTimeline, c.includeSentiment);
    var extra := BuildExtraLines(c);

    var instructionsText, extraText := Join(Render(instructions), LineBreak), Join(Render(extra), LineBreak);
    var promptParts := [InstructionsHeader, instructionsText, extraText, TranscriptHeader, c.transcript];
    if Given(c.meetingTitle) {
      promptParts := Insert(promptParts, 2, TitleHeader(c.meetingTitle.value));
    }
    if Given(c.meetingDate) {
      var insertPos := if Given(c.meetingTitle) then 3 else 2;
      promptParts := Insert(promptParts, insertPos, DateHeader(c.meetingDate.value));
    }
    InsertHeaders(instructionsText, c.meetingTitle, c.meetingDate, extraText, c.transcript);
    assert promptParts == Layout(instructionsText, TitleParts(c.meetingTitle), DateParts(c.meetingDate),
                                 extraText, c.transcript);
    prompt := Join(promptParts, PartBreak);
    PromptFrame(c);
  }

  // ---------------------------------------------------------------- properties

  /** The skeleton's fields: which are present, and in what order. */
  lemma SkeletonShape(includeTimeline: bool, includeSentiment: bool)
    ensures var f := Skeleton(includeTimeline, includeSentiment);
      && |f| == 4 + (if includeTimeline then 1 else 0) + (if includeSentiment then 1 else 0)
      && f[0] == SkeletonLine(SummaryShort) && f[1] == SkeletonLine(SummaryDetailed)
      && f[2] == SkeletonLine(DiscussionFlow)
      && (SkeletonLine(Timeline) in f <==> includeTimeline)
      && (includeTimeline ==> f[3] == SkeletonLine(Timeline) && f[4] == SkeletonLine(ActionItems))
      && (!includeTimeline ==> f[3] == SkeletonLine(ActionItems))
      && (SkeletonLine(SpeakerSentiment) in f <==> includeSentiment)
      && (includeSentiment ==> f[|f| - 1] == SkeletonLine(SpeakerSentiment))
      && (!includeSentiment ==> f[|f| - 1] == SkeletonLine(ActionItems))
  {
  }

  /** The instruction block: the three opening lines, the skeleton in braces, the summary rule. */
  lemma InstructionShape(includeTimeline: bool, includeSentiment: bool)
    ensures var lines := InstructionLines(includeTimeline, includeSentiment);
      var f := Skeleton(includeTimeline, includeSentiment);
      && |lines| == |f| + 6
      && lines[..4] == [OnlyJson, TranscriptIsReal, ProduceStructure, OpenBrace]
      && lines[4..4 + |f|] == f
      && lines[4 + |f|..] == [CloseBrace, DetailedSummary]
  {
  }

  /** Exactly one speaker instruction, the first extra rule, followed by the action-item rules. */
  lemma SpeakerVariant(c: PromptConfig)
    ensures var e := ExtraLines(c);
      && e[0] == (if c.includeSpeakers then PreserveSpeakers else IgnoreSpeakers)
      && e[1..6] == ActionItemRules
      && forall k :: 1 <= k < |e| ==> e[k] != PreserveSpeakers && e[k] != IgnoreSpeakers
  {
  }

  /**
   * With a meeting date, the full deadline rules; otherwise the single rule that
   * forbids inferring dates. The meeting-date line is there exactly when a date is.
   */
  lemma DeadlineVariant(c: PromptConfig)
    ensures var e := ExtraLines(c);
      && (Given(c.meetingDate) ==> |e| == 23 && e[6..20] == DatedDeadlineRules(c.meetingDate.value))
      && (!Given(c.meetingDate) ==> |e| == 10 && e[6] == ExplicitDeadlinesOnly)
      && (forall k :: 0 <= k < |e| && e[k].MeetingDate? ==> Given(c.meetingDate) && e[k].date == c.meetingDate.value)
  {
    var e := ExtraLines(c);
    if Given(c.meetingDate) {
      assert e == [e[0]] + ActionItemRules + DatedDeadlineRules(c.meetingDate.value) + e[20..];
    } else {
      assert e == [e[0]] + ActionItemRules + [ExplicitDeadlinesOnly] + e[7..];
    }
  }

  /** The meeting-date line embeds the date verbatim, between a fixed lead and a fixed tail. */
  lemma MeetingDateVerbatim(date: string)
    ensures var t := Text(MeetingDate(date));
      && |t| == |DateRuleLead| + |date| + |DateRuleTail|
      && StartsWith(t, DateRuleLead)
      && t[|DateRuleLead|..|DateRuleLead| + |date|] == date
      && EndsWith(t, DateRuleTail)
  {
  }

  /** The closing extra rules: the timeline variant, the sentiment variant, then the no-markdown rule. */
  lemma ClosingRules(c: PromptConfig)
    ensures var e := ExtraLines(c);
      && e[|e| - 3] == (if c.includeTimeline then TimelineIfCues else NoTimeline)
      && e[|e| - 2] == (if c.includeSentiment then ClassifySentiment else NoSentiment)
      && e[|e| - 1] == NoMarkdown
  {
  }

  /** Inserting the title at 2 and then the date at 3 (after a title) or 2 gives the layout. */
  lemma InsertHeaders(instructions: string, title: Option<string>, date: Option<string>, extra: string,
                      transcript: string)
    ensures var p0 := [InstructionsHeader, instructions, extra, TranscriptHeader, transcript];
      var p1 := if Given(title) then Insert(p0, 2, TitleHeader(title.value)) else p0;
      var p2 := if Given(date) then Insert(p1, if Given(title) then 3 else 2, DateHeader(date.value)) else p1;
      p2 == Layout(instructions, TitleParts(title), DateParts(date), extra, transcript)
  {
  }

  /** Where each part sits in the layout. */
  lemma LayoutPositions(instructions: string, titles: seq<string>, dates: seq<string>, extra: string,
                        transcript: string)
    ensures var p := Layout(instructions, titles, dates, extra, transcript);
      && |p| == 5 + |titles| + |dates|
      && p[0] == InstructionsHeader && p[1] == instructions
      && p[2..2 + |titles|] == titles
      && p[2 + |titles|..2 + |titles| + |dates|] == dates
      && p[2 + |titles| + |dates|] == extra
      && p[|p| - 2] == TranscriptHeader && p[|p| - 1] == transcript
  {
    var p := Layout(instructions, titles, dates, extra, transcript);
    assert p == [InstructionsHeader, instructions] + titles + dates + [extra, TranscriptHeader, transcript];
  }

  /**
   * The part layout: the instructions header and the instruction block first,
   * then the extra rules, the transcript header and the transcript, with one
   * part more for a title and one more for a date.
   */
  lemma PartLayout(c: PromptConfig)
    ensures var p := PromptParts(c);
      && |p| == 5 + |TitleParts(c.meetingTitle)| + |DateParts(c.meetingDate)|
      && p[0] == InstructionsHeader
      && p[1] == InstructionText(c.includeTimeline, c.includeSentiment)
      && p[|p| - 3] == ExtraText(c)
      && p[|p| - 2] == TranscriptHeader
      && p[|p| - 1] == c.transcript
  {
    LayoutPositions(InstructionText(c.includeTimeline, c.includeSentiment), TitleParts(c.meetingTitle),
                    DateParts(c.meetingDate), ExtraText(c), c.transcript);
  }

  /** Where the optional headers land in the layout, for any surrounding parts. */
  lemma HeaderSlots(instructions: string, title: Option<string>, date: Option<string>, extra: string,
                    transcript: string)
    ensures var p := Layout(instructions, TitleParts(title), DateParts(date), extra, transcript);
      && (Given(title) ==> p[2] == TitleHeader(title.value))
      && (Given(date) && Given(title) ==> p[3] == DateHeader(date.value))
      && (Given(date) && !Given(title) ==> p[2] == DateHeader(date.value))
      && (!Given(title) && !Given(date) ==> p[2] == extra)
  {
    var titles, dates := TitleParts(title), DateParts(date);
    LayoutPositions(instructions, titles, dates, extra, transcript);
    var p := Layout(instructions, titles, dates, extra, transcript);
    if Given(title) { assert p[2] == p[2..2 + |titles|][0]; }
    if Given(date) { assert p[2 + |titles|] == p[2 + |titles|..2 + |titles| + |dates|][0]; }
  }

  /** The title goes at index 2; the date at index 3 after a title, else at index 2. */
  lemma HeaderPositions(c: PromptConfig)
    ensures var p := PromptParts(c);
      && (Given(c.meetingTitle) ==> p[2] == TitleHeader(c.meetingTitle.value))
      && (Given(c.meetingDate) && Given(c.meetingTitle) ==> p[3] == DateHeader(c.meetingDate.value))
      && (Given(c.meetingDate) && !Given(c.meetingTitle) ==> p[2] == DateHeader(c.meetingDate.value))
      && (!Given(c.meetingTitle) && !Given(c.meetingDate) ==> p[2] == ExtraText(c))
  {
    HeaderSlots(InstructionText(c.includeTimeline, c.includeSentiment), c.meetingTitle, c.meetingDate,
                ExtraText(c), c.transcript);
  }

  /** Joined with a blank line, the layout opens with the instructions header and closes with the transcript. */
  lemma LayoutFrame(instructions: string, titles: seq<string>, dates: seq<string>, extra: string,
                    transcript: string)
    ensures var s := Join(Layout(instructions, titles, dates, extra, transcript), PartBreak);
      && StartsWith(s, InstructionsHeader + PartBreak)
      && EndsWith(s, PartBreak + TranscriptHeader + PartBreak + transcript)
  {
    var p := Layout(instructions, titles, dates, extra, transcript);
    var n := |p|;
    assert p == [p[0]] + p[1..];
    JoinStartsWith(p[0], p[1..], PartBreak);
    assert p == p[..n - 2] + [TranscriptHeader, transcript];
    JoinEndsWith(p[..n - 2], TranscriptHeader, transcript, PartBreak);
  }

  /** The prompt opens with the instructions header and closes with the transcript, verbatim. */
  lemma PromptFrame(c: PromptConfig)
    ensures StartsWith(PromptText(c), InstructionsHeader + PartBreak)
    ensures EndsWith(PromptText(c), PartBreak + TranscriptHeader + PartBreak + c.transcript)
  {
    LayoutFrame(InstructionText(c.includeTimeline, c.includeSentiment), TitleParts(c.meetingTitle),
                DateParts(c.meetingDate), ExtraText(c), c.transcript);
  }

  /** `language` is accepted and never read: the prompt does not depend on it. */
  lemma LanguageIgnored(c: PromptConfig, language: string)
    ensures PromptText(c.(language := language)) == PromptText(c)
  {
  }
}

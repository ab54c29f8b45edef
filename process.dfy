/**
 * `process_meeting`, the POST /process route: it rejects a transcript that is
 * too short, builds the prompt, hands it to the language model, and turns the
 * reply into a JSON value, first by parsing the whole reply and, failing that,
 * by parsing the span the regular expression `\{.*\}` (with DOTALL) finds.
 *
 * The language model and the JSON parser are not part of this model; they are
 * parameters: `complete` maps a prompt to a reply, `parse` maps a text to a
 * value or to the parser's error message.
 */
module Process {
  import opened Wrappers
  import opened Strings
  import opened PromptBuilder

  /** The request body; the defaults of the optional fields are the schema's. */
  datatype ProcessRequest = ProcessRequest(
    transcript: string,
    meetingTitle: Option<string> := None,
    includeSpeakers: bool := true,
    includeSentiment: bool := true,
    includeTimeline: bool := true,
    language: string := "english")

  /** What the route answers: one of its three HTTP errors, or the parsed value. */
  datatype Outcome<V> = TooShort | NoJson | BadSalvage(parseError: string) | Ok(value: V)

  /** The HTTP status of each outcome. */
  function Status<V>(o: Outcome<V>): (r: int)
    ensures r == 200 <==> o.Ok?
    ensures r == 400 <==> o.TooShort?
  {
    match o
    case TooShort => 400
    case NoJson => 500
    case BadSalvage(_) => 500
    case Ok(_) => 200
  }

  /** The `detail` of each error outcome. */
  function Detail<V>(o: Outcome<V>): (r: string)
    requires !o.Ok?
    ensures o.BadSalvage? ==> EndsWith(r, o.parseError)
  {
    match o
    case TooShort => "Transcript is too short or empty."
    case NoJson => "LLM did not return JSON."
    case BadSalvage(e) => "Failed to parse model JSON: " + e
  }

  const MinTranscriptLength := 10

  /** The guard of the route: the transcript is empty, or shorter than ten once stripped. */
  predicate TooShortTranscript(transcript: string)
    ensures |transcript| < MinTranscriptLength ==> TooShortTranscript(transcript)
  {
    var r := Strip(transcript);
    assert IsStripOf(r, transcript);
    transcript == "" || |r| < MinTranscriptLength
  }

  // ---------------------------------------------------------------- the salvage regex

  /** `\{.*\}` with DOTALL matches `s[a..b]`: it opens with `{`, closes with `}`, and anything lies between. */
  predicate IsBraceMatch(s: string, a: int, b: int) {
    0 <= a && a + 2 <= b <= |s| && s[a] == '{' && s[b - 1] == '}'
  }

  /**
   * `re.search` returns `s[a..b]`: the match that starts leftmost and, of the
   * matches from there, the longest (the greedy `.*` backtracks from the end).
   */
  ghost predicate SearchFinds(s: string, a: int, b: int) {
    && IsBraceMatch(s, a, b)
    && (forall a', b' :: a' < a ==> !IsBraceMatch(s, a', b'))
    && (forall b' :: b < b' ==> !IsBraceMatch(s, a, b'))
  }

  /** The search as an index computation: from the first `{` to the last `}`, when that `}` comes later. */
  function BraceSpan(s: string): (r: Option<(nat, nat)>)
    ensures r.Some? ==> IsBraceMatch(s, r.value.0, r.value.1)
  {
    match FirstIndexOf(s, '{')
    case None => None
    case Some(i) =>
      match LastIndexOf(s, '}')
      case None => None
      case Some(j) => if i < j then Some((i, j + 1)) else None
  }

  /** `match.group(0)`, when there is a match. */
  function Salvage(s: string): (r: Option<string>)
    ensures r.Some? ==> |r.value| >= 2 && r.value[0] == '{' && r.value[|r.value| - 1] == '}'
  {
    match BraceSpan(s)
    case None => None
    case Some((a, b)) => Some(s[a..b])
  }

  // ---------------------------------------------------------------- the route

  /**
   * The two-stage parse of the reply: the whole reply first; if that fails, the
   * salvaged span, and an error when there is none or it does not parse either.
   * The length error belongs to the route's guard and never comes from here.
   */
  function ParseReply<V>(reply: string, parse: string -> Result<V, string>): (r: Outcome<V>)
    ensures !r.TooShort?
  {
    match parse(reply)
    case Success(v) => Ok(v)
    case Failure(_) =>
      match Salvage(reply)
      case None => NoJson
      case Some(span) =>
        match parse(span)
        case Success(v) => Ok(v)
        case Failure(e) => BadSalvage(e)
  }

  /** The arguments the route passes to `build_prompt`: the request's own, and never a meeting date. */
  function RouteConfig(req: ProcessRequest): (c: PromptConfig)
    ensures !Given(c.meetingDate)
    ensures c.transcript == req.transcript && c.meetingTitle == req.meetingTitle
  {
    PromptConfig(req.transcript, req.meetingTitle, None, req.includeSpeakers, req.includeSentiment,
                 req.includeTimeline, req.language)
  }

  /** What the route does with one request: the prompt it sends (if any) and its answer. */
  datatype Exchange<V> = Exchange(sent: Option<string>, outcome: Outcome<V>)

  function ProcessMeeting<V>(req: ProcessRequest, complete: string -> string, parse: string -> Result<V, string>)
    : (r: Exchange<V>)
    ensures r.sent.None? <==> TooShortTranscript(req.transcript)
    ensures r.sent.None? <==> r.outcome.TooShort?
    ensures r.sent.Some? ==> r.sent.value == PromptText(RouteConfig(req))
  {
    if TooShortTranscript(req.transcript) then
      Exchange(None, TooShort)
    else
      var prompt := PromptText(RouteConfig(req));
      Exchange(Some(prompt), ParseReply(complete(prompt), parse))
  }

  // ---------------------------------------------------------------- the length check

  /** The empty-string test is subsumed: the route rejects exactly when the stripped transcript is under ten. */
  lemma TooShortMeansStrippedShort(transcript: string)
    ensures TooShortTranscript(transcript) <==> |Strip(transcript)| < MinTranscriptLength
  {
    if transcript == "" {
      var r := Strip(transcript);
      assert IsStripOf(r, transcript);
    }
  }

  /** Whitespace around the transcript does not change the verdict. */
  lemma PaddingIgnored(pre: string, transcript: string, post: string)
    requires AllSpace(pre) && AllSpace(post)
    ensures TooShortTranscript(pre + transcript + post) <==> TooShortTranscript(transcript)
  {
    StripIgnoresPadding(pre, transcript, post);
    TooShortMeansStrippedShort(pre + transcript + post);
    TooShortMeansStrippedShort(transcript);
  }

  /** A transcript of whitespace only is rejected, however long. */
  lemma BlankRejected(transcript: string)
    requires AllSpace(transcript)
    ensures TooShortTranscript(transcript)
  {
    StripOfBlank(transcript);
  }

  /** Ten characters that are not whitespace at either end are long enough. */
  lemma TenCharactersAccepted(transcript: string)
    requires |transcript| >= MinTranscriptLength
    requires !IsSpace(transcript[0]) && !IsSpace(transcript[|transcript| - 1])
    ensures !TooShortTranscript(transcript)
  {
    assert transcript[..0] == [] && transcript[|transcript|..] == [];
    assert StripsAt(transcript, 0, |transcript|);
    assert transcript[0..|transcript|] == transcript;
    StripUnique(transcript, transcript);
  }

  // ---------------------------------------------------------------- the salvage span

  /** The index computation finds exactly what the regular-expression search finds. */
  lemma BraceSpanIsSearch(s: string, a: nat, b: nat)
    ensures BraceSpan(s) == Some((a, b)) <==> SearchFinds(s, a, b)
  {
    if BraceSpan(s) == Some((a, b)) {
      var i, j := FirstIndexOf(s, '{').value, LastIndexOf(s, '}').value;
      assert a == i && b == j + 1;
      forall a', b' | a' < a ensures !IsBraceMatch(s, a', b') { }
      forall b' | b < b' ensures !IsBraceMatch(s, a, b') { }
    }
    if SearchFinds(s, a, b) {
      var first, last := FirstIndexOf(s, '{'), LastIndexOf(s, '}');
      assert first.Some? && first.value <= a;
      assert last.Some? && last.value >= b - 1;
      assert IsBraceMatch(s, first.value, last.value + 1);
    }
  }

  /** The search finds nothing exactly when no `}` follows a `{`. */
  lemma NoSpanIffNoBracePair(s: string)
    ensures BraceSpan(s).None? <==> forall i, j :: 0 <= i < j < |s| && s[i] == '{' ==> s[j] != '}'
  {
    if BraceSpan(s).None? {
      forall i, j | 0 <= i < j < |s| && s[i] == '{' ensures s[j] != '}' {
        var first, last := FirstIndexOf(s, '{'), LastIndexOf(s, '}');
        assert first.Some? && first.value <= i;
      }
    } else {
      var a, b := BraceSpan(s).value.0, BraceSpan(s).value.1;
      assert s[a] == '{' && s[b - 1] == '}';
    }
  }

  /** With no match at all, the search has no result; with a result, it is a match. */
  lemma NoSpanIffNoMatch(s: string)
    ensures BraceSpan(s).None? <==> forall a, b :: !IsBraceMatch(s, a, b)
  {
    NoSpanIffNoBracePair(s);
    if BraceSpan(s).None? {
      forall a, b ensures !IsBraceMatch(s, a, b) {
      }
    }
  }

  /** Prose around one object is cut away: the span is the object, braces included. */
  lemma SalvageDropsProse(pre: string, body: string, post: string)
    requires forall k :: 0 <= k < |pre| ==> pre[k] != '{'
    requires forall k :: 0 <= k < |post| ==> post[k] != '}'
    requires |body| >= 2 && body[0] == '{' && body[|body| - 1] == '}'
    ensures Salvage(pre + body + post) == Some(body)
  {
    var s := pre + body + post;
    var a, b := |pre|, |pre| + |body|;
    assert IsBraceMatch(s, a, b) by { assert s[a] == body[0] && s[b - 1] == body[|body| - 1]; }
    forall a', b' | a' < a ensures !IsBraceMatch(s, a', b') {
      if 0 <= a' { assert s[a'] == pre[a']; }
    }
    forall b' | b < b' ensures !IsBraceMatch(s, a, b') {
      if b' <= |s| { assert s[b' - 1] == post[b' - 1 - b]; }
    }
    BraceSpanIsSearch(s, a, b);
    assert s[a..b] == body;
  }

  // ---------------------------------------------------------------- the two-stage parse

  /** A reply that parses as a whole is the answer, unchanged, and nothing is salvaged. */
  lemma StrictParseWins<V>(reply: string, parse: string -> Result<V, string>)
    requires parse(reply).Success?
    ensures ParseReply(reply, parse) == Ok(parse(reply).value)
  {
  }

  /** A reply that does not parse and holds no match is reported as not being JSON. */
  lemma NoMatchNoJson<V>(reply: string, parse: string -> Result<V, string>)
    requires parse(reply).Failure?
    ensures ParseReply(reply, parse) == NoJson <==> forall a, b :: !IsBraceMatch(reply, a, b)
  {
    NoSpanIffNoMatch(reply);
  }

  /** Otherwise the span the search finds is parsed, and its parse error becomes the error detail. */
  lemma SalvagedSpanDecides<V>(reply: string, parse: string -> Result<V, string>, a: nat, b: nat)
    requires parse(reply).Failure? && SearchFinds(reply, a, b)
    ensures parse(reply[a..b]).Success? ==> ParseReply(reply, parse) == Ok(parse(reply[a..b]).value)
    ensures parse(reply[a..b]).Failure? ==> ParseReply(reply, parse) == BadSalvage(parse(reply[a..b]).error)
  {
    BraceSpanIsSearch(reply, a, b);
  }

  /** The error detail of a bad span carries the parser's message after a fixed lead. */
  lemma BadSalvageDetail<V>(e: string)
    ensures var d := Detail<V>(BadSalvage(e));
      StartsWith(d, "Failed to parse model JSON: ") && d[|d| - |e|..] == e
  {
  }

  /**
   * A value the route returns is the parser's value, untouched: either of the
   * whole reply, or of the span the search finds.
   */
  lemma ValueUnchanged<V>(reply: string, parse: string -> Result<V, string>, v: V)
    requires ParseReply(reply, parse) == Ok(v)
    ensures parse(reply) == Success(v) ||
            exists a: nat, b: nat :: SearchFinds(reply, a, b) && parse(reply[a..b]) == Success(v)
  {
    if parse(reply).Failure? {
      var a, b := BraceSpan(reply).value.0, BraceSpan(reply).value.1;
      BraceSpanIsSearch(reply, a, b);
      assert parse(reply[a..b]) == Success(v);
    }
  }

  // ---------------------------------------------------------------- the route

  /** A rejected request sends nothing to the model; an accepted one sends the prompt with no meeting date. */
  lemma RejectedSendsNothing<V>(req: ProcessRequest, complete: string -> string,
                                parse: string -> Result<V, string>)
    ensures var r := ProcessMeeting(req, complete, parse);
      && (r.outcome.TooShort? <==> |Strip(req.transcript)| < MinTranscriptLength)
      && (r.outcome.TooShort? ==> Status(r.outcome) == 400 && r.sent.None?)
      && (!r.outcome.TooShort? ==> r.outcome == ParseReply(complete(r.sent.value), parse))
  {
    TooShortMeansStrippedShort(req.transcript);
  }

  /** The route never passes a meeting date, so its prompt always carries the no-inference deadline rule. */
  lemma RouteDeadlineRule(req: ProcessRequest)
    ensures var e := ExtraLines(RouteConfig(req));
      && |e| == 10 && e[6] == ExplicitDeadlinesOnly
      && forall k :: 0 <= k < |e| ==> !e[k].MeetingDate?
  {
    DeadlineVariant(RouteConfig(req));
  }

  /** The route's prompt has five parts plus one for a title, and ends with the transcript. */
  lemma RoutePromptLayout(req: ProcessRequest)
    ensures var p := PromptParts(RouteConfig(req));
      && |p| == 5 + (if Given(req.meetingTitle) then 1 else 0)
      && p[|p| - 3] == ExtraText(RouteConfig(req))
      && p[|p| - 1] == req.transcript
    ensures EndsWith(PromptText(RouteConfig(req)), PartBreak + TranscriptHeader + PartBreak + req.transcript)
  {
    PartLayout(RouteConfig(req));
    PromptFrame(RouteConfig(req));
  }
}

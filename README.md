# MinuteMind meeting processing, modelled in Dafny

MinuteMind turns a meeting transcript into a structured JSON summary by asking
a language model. Two deterministic pieces sit around that call, and they are
what this project models:

- **Prompt construction** (`build_prompt`). The JSON skeleton is built by
  appending. The instruction block is a list concatenation around the
  skeleton. The extra-rules block is built by appending and extending. The five prompt parts get an optional title header
  and an optional date header inserted at computed positions. Everything is
  then joined with a blank line. `PromptBuilder.BuildPrompt` and its helper
  methods follow these steps on `seq` variables. The functions `Skeleton`,
  `InstructionLines`, `ExtraLines`, `PromptParts` and `PromptText` state the
  same prompt declaratively, and the lemmas beside them state its shape.
- **Request handling** (`process_meeting`). A transcript that is empty, or
  shorter than ten characters once stripped, is rejected with status 400.
  Otherwise the prompt goes to the model. The reply is parsed whole. If that
  fails, the span matched by `\{.*\}` under DOTALL is parsed instead. When
  there is no such span the answer is "LLM did not return JSON." (500). When
  the span does not parse, the answer is "Failed to parse model JSON: "
  followed by the parser's message (500). A value that parses is returned
  unchanged.

Neither the language model nor the JSON parser is modelled. `Process.ProcessMeeting`
takes them as function parameters: `complete` maps a prompt to a reply, and
`parse` maps a text to a value or to the parser's error message (`str(e)`).

Modules:

- `Wrappers`: `Option` and `Result`.
- `Strings`: the Python string and list operations the core relies on:
  - `"sep".join`;
  - `list.insert`, including its clamping past the end;
  - `str.strip`, with Python's full `isspace` set;
  - the first and last index of a character.
- `PromptBuilder`: `build_prompt`.
- `Process`: `process_meeting`. The regular-expression search is modelled in two
  ways. `SearchFinds` is a reference predicate: the leftmost match, then the
  longest match from there. `BraceSpan` is the index computation: from the first
  `{` to the last `}`. They are proved to agree.

Each prompt line is a value of the `Line` datatype. `PromptBuilder.Text` gives
each line's wording exactly as the source spells it. The meeting-date line is
the only one that carries data: it embeds the date. The structural lemmas are
stated over `Line` values, the parts and `Join`.

What the route does not do:

- It passes no meeting date to `build_prompt`. Its request schema has no such
  field (backend/schemas.py:21-27), so the route's prompt always carries the
  rule against inferring deadlines.
- It does not post-process the parsed value:
  - the timeline and the speaker sentiment are not forced empty when disabled;
  - missing fields are not filled in;
  - the title and the date are not copied into the answer.
- When the salvaged span does not parse, the error detail carries the parser's
  message, and the reply itself is not part of it.

The salvage span is greedy: with two objects in the reply it runs from the first
object's `{` to the second's `}` (`Process.SalvageDropsProse` with a `body`
holding both).

## Model

| member | source | states |
|---|---|---|
| `Strings.Join` | backend/services/prompt_builder.py:140-155 | `sep.join(parts)`: the parts in order with the separator between neighbours; its properties are the lemmas below |
| `Strings.JoinConcat` | backend/services/prompt_builder.py:155 | joining two non-empty lists of parts is joining each and putting one separator between them |
| `Strings.JoinStartsWith` | backend/services/prompt_builder.py:155 | a join of two or more parts begins with the first part followed by the separator |
| `Strings.JoinEndsWith` | backend/services/prompt_builder.py:155 | a join of three or more parts ends with separator, second-last part, separator, last part |
| `Strings.Insert` | backend/services/prompt_builder.py:147-152 | `list.insert(i, x)`: one element longer; `x` at `i` with the prefix before it and the rest after it unchanged; appended at the end when `i` is past the end |
| `Strings.LeadingSpace` | backend/routes/process.py:29 | the count of leading characters is all whitespace, and the next character is not |
| `Strings.TrailingSpace` | backend/routes/process.py:29 | the count of trailing characters is all whitespace, and the character before them is not |
| `Strings.Strip` | backend/routes/process.py:29 | `str.strip()`: the result is a slice of the input with only whitespace outside it and no whitespace at either of its ends |
| `Strings.StripsAtBounds` | backend/routes/process.py:29 | any such cut has exactly the cut points `Strip` computes |
| `Strings.StripUnique` | backend/routes/process.py:29 | any string meeting the definition of a strip of `s` is `Strip(s)` |
| `Strings.StripIgnoresPadding` | backend/routes/process.py:29 | whitespace added at either end of a string does not change its strip |
| `Strings.StripOfBlank` | backend/routes/process.py:29 | a string of whitespace only strips to the empty string |
| `Strings.FirstIndexOf` | backend/routes/process.py:51 | the index holds the character and no earlier index does; no result means the character does not occur |
| `Strings.LastIndexOf` | backend/routes/process.py:51 | the index holds the character and no later index does; no result means the character does not occur |
| `PromptBuilder.FieldText` | backend/services/prompt_builder.py:15-33 | the wording of each skeleton line, verbatim |
| `PromptBuilder.Text` | backend/services/prompt_builder.py:35-135 | the wording of every instruction and rule line, verbatim; the meeting-date line puts the date between a fixed lead and tail |
| `PromptBuilder.BuildJsonFields` | backend/services/prompt_builder.py:15-33 | appending the skeleton lines one by one yields `Skeleton` |
| `PromptBuilder.BuildExtraLines` | backend/services/prompt_builder.py:45-135 | appending and extending the rule lines yields `ExtraLines` |
| `PromptBuilder.BuildPrompt` | backend/services/prompt_builder.py:1-155 | the prompt built by appends, inserts and joins is `PromptText`; it begins with the instructions header and a blank line and ends with a blank line, the transcript header, a blank line and the transcript |
| `PromptBuilder.SkeletonShape` | backend/services/prompt_builder.py:15-33 | always `summary_short`, `summary_detailed`, `discussion_flow`, `action_items` in that order; the `timeline` line iff the flag is set, between `discussion_flow` and `action_items`; the `speaker_sentiment` line iff its flag is set, and then last |
| `PromptBuilder.InstructionShape` | backend/services/prompt_builder.py:35-43 | the three opening lines and `{`, then the skeleton, then `}` and the summary rule |
| `PromptBuilder.SpeakerVariant` | backend/services/prompt_builder.py:47-62 | the first extra rule is the preserve-labels line when speakers are enabled and the ignore-labels line otherwise; the five action-item rules follow; no other speaker line appears |
| `PromptBuilder.DeadlineVariant` | backend/services/prompt_builder.py:64-114 | with a non-empty meeting date, the fourteen dated deadline rules follow the action-item rules; otherwise only the no-inference rule does; a meeting-date line appears only when a date is given, and it carries that date |
| `PromptBuilder.MeetingDateVerbatim` | backend/services/prompt_builder.py:68 | the meeting-date line embeds the date verbatim at a fixed offset after a fixed lead |
| `PromptBuilder.ClosingRules` | backend/services/prompt_builder.py:116-135 | the extra rules end with the timeline variant, the sentiment variant and the no-markdown rule |
| `PromptBuilder.InsertHeaders` | backend/services/prompt_builder.py:146-153 | inserting the title at 2, then the date at 3 after a title or else at 2, puts the headers between the instructions and the extra rules |
| `PromptBuilder.LayoutPositions` | backend/services/prompt_builder.py:138-153 | the parts are the instructions header, the instructions, the titles, the dates, the extra rules, the transcript header and the transcript, and their count is five plus the headers |
| `PromptBuilder.PartLayout` | backend/services/prompt_builder.py:138-144 | part count is 5 + [title] + [date]; the instructions header and block come first; the extra rules, the transcript header and the transcript come last |
| `PromptBuilder.HeaderSlots` | backend/services/prompt_builder.py:146-153 | in any layout the title sits at 2; the date sits at 3 after a title and at 2 without one; with neither, the extra rules sit at 2 |
| `PromptBuilder.HeaderPositions` | backend/services/prompt_builder.py:146-153 | the same positions in the prompt's own parts |
| `PromptBuilder.LayoutFrame` | backend/services/prompt_builder.py:138-155 | any layout, joined with a blank line, begins with the instructions header and ends with the transcript header and the transcript |
| `PromptBuilder.PromptFrame` | backend/services/prompt_builder.py:138-155 | the prompt begins with the instructions header and ends with the transcript, verbatim |
| `PromptBuilder.LanguageIgnored` | backend/services/prompt_builder.py:8 | the prompt is the same for every `language` |
| `Process.BraceSpan` | backend/routes/process.py:51 | a span that is found opens with `{`, closes with `}` and is at least two characters long |
| `Process.Salvage` | backend/routes/process.py:51-54 | the salvaged text begins with `{` and ends with `}` |
| `Process.BraceSpanIsSearch` | backend/routes/process.py:51 | the first-`{`-to-last-`}` span is exactly the leftmost-then-longest match of `\{.*\}` under DOTALL |
| `Process.NoSpanIffNoBracePair` | backend/routes/process.py:51-52 | a span exists iff some `}` occurs after a `{` |
| `Process.NoSpanIffNoMatch` | backend/routes/process.py:51-58 | no span is found iff the pattern matches nowhere |
| `Process.SalvageDropsProse` | backend/routes/process.py:49-54 | text without `{` before an object and without `}` after it is cut away; the salvaged text is the object, braces included |
| `Process.ParseReply` | backend/routes/process.py:45-58 | the parse stage never yields the length error |
| `Process.StrictParseWins` | backend/routes/process.py:45-46 | a reply that parses whole is the answer, unchanged |
| `Process.NoMatchNoJson` | backend/routes/process.py:57-58 | after a failed strict parse, the answer is "not JSON" iff the pattern matches nowhere |
| `Process.SalvagedSpanDecides` | backend/routes/process.py:52-56 | after a failed strict parse, the found span decides: its value if it parses, otherwise the salvage error carrying the parser's message |
| `Process.BadSalvageDetail` | backend/routes/process.py:55-56 | the detail of a salvage error is the fixed lead followed by the parser's message |
| `Process.ValueUnchanged` | backend/routes/process.py:60-64 | a value the route returns is exactly the parser's value of the whole reply or of the found span |
| `Process.TooShortTranscript` | backend/routes/process.py:29 | the route's guard; any transcript under ten characters fails it |
| `Process.Status` | backend/routes/process.py:29-64 | 200 exactly for a parsed value and 400 exactly for the length error; the other errors are 500 |
| `Process.Detail` | backend/routes/process.py:30-58 | the detail of each error; a salvage error's detail ends with the parser's message |
| `Process.RouteConfig` | backend/routes/process.py:32-39 | the arguments the route passes to `build_prompt`: the request's transcript, title and flags, and never a meeting date |
| `Process.TooShortMeansStrippedShort` | backend/routes/process.py:29-30 | the guard holds iff the stripped transcript is shorter than ten; the empty-string test is subsumed |
| `Process.PaddingIgnored` | backend/routes/process.py:29 | whitespace around a transcript never changes the verdict |
| `Process.BlankRejected` | backend/routes/process.py:29-30 | a transcript of whitespace only is rejected, however long |
| `Process.TenCharactersAccepted` | backend/routes/process.py:29 | ten or more characters with no whitespace at either end pass the guard |
| `Process.ProcessMeeting` | backend/routes/process.py:17-64 | no prompt is sent iff the guard rejects, iff the answer is the length error; the prompt sent is `build_prompt` of the request's fields |
| `Process.RejectedSendsNothing` | backend/routes/process.py:29-42 | the request is rejected with 400 iff its stripped transcript is under ten, and then nothing is sent; otherwise the answer is the two-stage parse of the model's reply |
| `Process.RouteDeadlineRule` | backend/routes/process.py:32-39 | the route's prompt has the ten-line rule block with the no-inference deadline rule and no meeting-date line |
| `Process.RoutePromptLayout` | backend/routes/process.py:32-39 | the route's prompt has five parts plus one for a title, and ends with the transcript |

## Left out

- The language model call (`LLMClient().complete`) is the `complete` parameter. Its configuration, its errors and its timeouts are not modelled.
- `json.loads` is the `parse` parameter. An error is represented by its message.
- `ensure_json_serializable` (backend/utils/validators.py:3-7) is not modelled. Every value `json.loads` produces serialises, so the check never fails here.
- FastAPI's validation of the returned value against `ProcessResponse` (backend/routes/process.py:16) is not modelled. The model returns the parsed value as the route function does.
- Logging (backend/routes/process.py:48) is not modelled.
- The prompt's wording is modelled exactly, but the lemmas work on `Line` values. No lemma states that two different lines have different wording.
- The deadline, weekday and "tomorrow" rules are text sent to the model. The code does no date arithmetic, and neither does the model.
- `build_prompt` declares `meeting_title` as a string defaulting to `""`. The route passes the request's optional title, which may be `None`. Both are `Option<string>`, and `Given` is Python's truthiness of either.
- Characters are Unicode scalar values. Python strings holding lone surrogates (U+D800 to U+DFFF) are not modelled.
- These parts of the repository are not part of this model:
  - the Streamlit frontend;
  - the upload route and PDF extraction;
  - audio transcription;
  - configuration, the database and app wiring;
  - the disabled sentiment route.
- `Process.ParseReply`: its own contract says only that it never yields the length error. Its full behaviour is stated by `StrictParseWins`, `NoMatchNoJson`, `SalvagedSpanDecides` and `ValueUnchanged`.

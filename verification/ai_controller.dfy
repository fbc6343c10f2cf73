/** The two AI summary handlers (server/controllers/aiController.js): pick the
    caller's entries in a range, oldest first; answer a fixed message when
    there are none; otherwise serialise them into a transcript, add the
    caller's profile context and hand the prompt to the text generator.
    The generator is a parameter that may fail (None); the instruction text
    around the transcript is not modelled, only its mode. */
module AiController {
  import opened Common
  import opened DiaryEntryModel
  import opened UserModel
  import opened EntryQuery

  /** The request time and the three instants `getStartDate` computes from it
      with local-time calendar arithmetic (seven days, one month and one year
      earlier). */
  datatype Clock = Clock(now: int, weekAgo: int, monthAgo: int, yearAgo: int)

  predicate ValidClock(c: Clock) {
    c.weekAgo <= c.now && c.monthAgo <= c.now && c.yearAgo <= c.now
  }

  /** Date formatting: `toDateString` of an entry's timestamp and of a stored
      date of birth. */
  datatype Locale = Locale(dateString: int -> string, birthDateString: string -> string)

  /** getStartDate: a lower bound for "weekly", "monthly" and "yearly" only. */
  function GetStartDate(range: Option<string>, clock: Clock): (r: Option<int>)
    ensures r.Some? <==> range == Some("weekly") || range == Some("monthly") || range == Some("yearly")
    ensures range == Some("weekly") ==> r == Some(clock.weekAgo)
    ensures range == Some("monthly") ==> r == Some(clock.monthAgo)
    ensures range == Some("yearly") ==> r == Some(clock.yearAgo)
    ensures ValidClock(clock) && r.Some? ==> r.value <= clock.now
  {
    if range == Some("weekly") then Some(clock.weekAgo)
    else if range == Some("monthly") then Some(clock.monthAgo)
    else if range == Some("yearly") then Some(clock.yearAgo)
    else None
  }

  /** The `createdAt` filter both handlers build (lines 23-33 and 91-101): a
      "custom" range needs both dates (a missing or empty one is a 400) and
      is inclusive at both ends; any other range, absent included, gives the
      lower bound of `GetStartDate` or no filter at all. */
  function SummaryFilter(range: Option<string>, customStart: Option<int>, customEnd: Option<int>,
                         clock: Clock): (r: Result<DateFilter, int>)
    ensures r.Err? <==> range == Some("custom") && (customStart.None? || customEnd.None?)
    ensures r.Err? ==> r.error == BAD_REQUEST
    ensures r.Ok? && range == Some("custom") ==> r.value == Between(customStart.value, customEnd.value)
    ensures range != Some("custom") ==>
      r.Ok? && (r.value.NoFilter? <==> GetStartDate(range, clock).None?)
    ensures range != Some("custom") && GetStartDate(range, clock).Some? ==>
      r == Ok(From(GetStartDate(range, clock).value))
  {
    if range == Some("custom") then
      if customStart.None? || customEnd.None? then Err(BAD_REQUEST)
      else Ok(Between(customStart.value, customEnd.value))
    else
      match GetStartDate(range, clock)
      case Some(start) => Ok(From(start))
      case None => Ok(NoFilter)
  }

  /** `parts.join(sep)`. */
  function Join(parts: seq<string>, sep: string): (r: string)
    ensures |parts| == 0 ==> r == ""
    ensures |parts| == 1 ==> r == parts[0]
    ensures |parts| > 0 ==> parts[0] <= r
  {
    if |parts| == 0 then ""
    else if |parts| == 1 then parts[0]
    else parts[0] + sep + Join(parts[1..], sep)
  }

  function TotalLength(parts: seq<string>): nat
  {
    if |parts| == 0 then 0 else |parts[0]| + TotalLength(parts[1..])
  }

  /** Joining two non-empty lists is joining their joins: the parts appear in
      order, one separator between neighbours. */
  lemma {:induction false} JoinAppend(a: seq<string>, b: seq<string>, sep: string)
    requires |a| > 0 && |b| > 0
    ensures Join(a + b, sep) == Join(a, sep) + sep + Join(b, sep)
  {
    if |a| == 1 {
      assert (a + b)[1..] == b;
    } else {
      assert (a + b)[1..] == a[1..] + b;
      JoinAppend(a[1..], b, sep);
    }
  }

  /** A join of n parts holds the parts' characters and n - 1 separators. */
  lemma {:induction false} JoinLength(parts: seq<string>, sep: string)
    requires |parts| > 0
    ensures |Join(parts, sep)| == TotalLength(parts) + (|parts| - 1) * |sep|
  {
    if |parts| > 1 {
      JoinLength(parts[1..], sep);
    }
  }

  const SUMMARY_SEPARATOR: string := "\n\n---\n\n"
  const ANALYSIS_SEPARATOR: string := "\n\n"
  const NOT_SPECIFIED: string := "Not specified"

  /** One entry of the summary transcript. */
  function SummaryBlock(e: DiaryEntry, locale: Locale): (r: string)
    ensures "Date: " <= r
    ensures |e.text| <= |r| && r[|r| - |e.text|..] == e.text
  {
    "Date: " + locale.dateString(e.createdAt) + ", Feeling: " + OrElse(e.feeling, NOT_SPECIFIED)
      + "\nEntry: " + e.text
  }

  function SummaryBlocks(es: seq<DiaryEntry>, locale: Locale): (r: seq<string>)
    ensures |r| == |es|
    ensures forall i :: 0 <= i < |es| ==> r[i] == SummaryBlock(es[i], locale)
  {
    seq(|es|, i requires 0 <= i < |es| => SummaryBlock(es[i], locale))
  }

  /** The standard summary's transcript: one block per entry, joined by a
      horizontal rule. */
  function SummaryTranscript(es: seq<DiaryEntry>, locale: Locale): (r: string)
    ensures |es| == 0 ==> r == ""
    ensures |es| > 0 ==> SummaryBlock(es[0], locale) <= r
  {
    Join(SummaryBlocks(es, locale), SUMMARY_SEPARATOR)
  }

  function Texts(es: seq<DiaryEntry>): (r: seq<string>)
    ensures |r| == |es|
    ensures forall i :: 0 <= i < |es| ==> r[i] == es[i].text
  {
    seq(|es|, i requires 0 <= i < |es| => es[i].text)
  }

  /** The deeper analysis's transcript: the bare texts, one blank line apart. */
  function AnalysisTranscript(es: seq<DiaryEntry>): (r: string)
    ensures |es| == 0 ==> r == ""
    ensures |es| > 0 ==> es[0].text <= r
  {
    Join(Texts(es), ANALYSIS_SEPARATOR)
  }

  /** The summary transcript grows by one separator and one block per entry
      appended, so the blocks appear in entry order. */
  lemma SummaryTranscriptAppend(es: seq<DiaryEntry>, e: DiaryEntry, locale: Locale)
    ensures SummaryTranscript([e], locale) == SummaryBlock(e, locale)
    ensures |es| > 0 ==>
      SummaryTranscript(es + [e], locale) == SummaryTranscript(es, locale) + SUMMARY_SEPARATOR + SummaryBlock(e, locale)
  {
    if |es| > 0 {
      assert SummaryBlocks(es + [e], locale) == SummaryBlocks(es, locale) + SummaryBlocks([e], locale);
      JoinAppend(SummaryBlocks(es, locale), SummaryBlocks([e], locale), SUMMARY_SEPARATOR);
    }
  }

  /** Likewise for the analysis transcript, with the entry texts. */
  lemma AnalysisTranscriptAppend(es: seq<DiaryEntry>, e: DiaryEntry)
    ensures AnalysisTranscript([e]) == e.text
    ensures |es| > 0 ==>
      AnalysisTranscript(es + [e]) == AnalysisTranscript(es) + ANALYSIS_SEPARATOR + e.text
  {
    if |es| > 0 {
      assert Texts(es + [e]) == Texts(es) + Texts([e]);
      JoinAppend(Texts(es), Texts([e]), ANALYSIS_SEPARATOR);
    }
  }

  /** The analysis transcript is as long as all texts plus one separator
      between each two of them. */
  lemma AnalysisTranscriptLength(es: seq<DiaryEntry>)
    requires |es| > 0
    ensures |AnalysisTranscript(es)| == TotalLength(Texts(es)) + (|es| - 1) * |ANALYSIS_SEPARATOR|
  {
    JoinLength(Texts(es), ANALYSIS_SEPARATOR);
  }

  /** The user facts put before the transcript. */
  datatype ProfileContext = ProfileContext(gender: string, ethnicity: string, dateOfBirth: string)

  /** A missing or empty gender, ethnicity or date of birth reads "Not specified". */
  function ProfileContextOf(u: User, locale: Locale): (r: ProfileContext)
    ensures Truthy(u.gender) ==> r.gender == u.gender.value
    ensures !Truthy(u.gender) ==> r.gender == NOT_SPECIFIED
    ensures Truthy(u.ethnicity) ==> r.ethnicity == u.ethnicity.value
    ensures !Truthy(u.ethnicity) ==> r.ethnicity == NOT_SPECIFIED
    ensures Truthy(u.dateOfBirth) ==> r.dateOfBirth == locale.birthDateString(u.dateOfBirth.value)
    ensures !Truthy(u.dateOfBirth) ==> r.dateOfBirth == NOT_SPECIFIED
  {
    ProfileContext(
      OrElse(u.gender, NOT_SPECIFIED),
      OrElse(u.ethnicity, NOT_SPECIFIED),
      if Truthy(u.dateOfBirth) then locale.birthDateString(u.dateOfBirth.value) else NOT_SPECIFIED)
  }

  /** generateSummary or generateDeeperAnalysis. */
  datatype Mode = Summary | DeeperAnalysis

  /** What the generator is asked: the mode's instructions (not modelled
      further), the profile context and the transcript. */
  datatype Prompt = Prompt(mode: Mode, context: ProfileContext, transcript: string)

  /** A JSON reply `{field: text}` with its status. */
  datatype Reply = Reply(status: int, field: string, text: string)

  function ResultField(mode: Mode): string {
    if mode == Summary then "summary" else "analysis"
  }

  function EmptyMessage(mode: Mode): string {
    if mode == Summary then "No diary entries were found for the selected period. Write some more to get a summary!"
    else "No diary entries were found for deeper analysis."
  }

  function FailureMessage(mode: Mode): string {
    if mode == Summary then "Error generating summary." else "Error generating deeper analysis."
  }

  const CUSTOM_RANGE_MESSAGE: string := "Custom range requires start and end dates."

  function Transcript(mode: Mode, es: seq<DiaryEntry>, locale: Locale): string {
    if mode == Summary then SummaryTranscript(es, locale) else AnalysisTranscript(es)
  }

  /** What a handler answers once the entries are selected: the fixed
      message for none, a 500 when the user record is gone (reading its
      fields throws) or the generator fails, otherwise the generated text. */
  function Respond(mode: Mode, es: seq<DiaryEntry>, user: Option<User>, locale: Locale,
                   generate: Prompt -> Option<string>): (r: Reply)
    ensures |es| == 0 ==> r == Reply(OK, ResultField(mode), EmptyMessage(mode))
    ensures r.status == OK || r.status == SERVER_ERROR
    ensures r.status == OK ==> r.field == ResultField(mode)
    ensures r.status == SERVER_ERROR ==> r.field == "message" && r.text == FailureMessage(mode)
    ensures |es| > 0 && r.status == OK ==>
      user.Some? &&
      Some(r.text) == generate(Prompt(mode, ProfileContextOf(user.value, locale), Transcript(mode, es, locale)))
  {
    if |es| == 0 then Reply(OK, ResultField(mode), EmptyMessage(mode))
    else if user.None? then Reply(SERVER_ERROR, "message", FailureMessage(mode))
    else
      var p := Prompt(mode, ProfileContextOf(user.value, locale), Transcript(mode, es, locale));
      match generate(p)
      case Some(text) => Reply(OK, ResultField(mode), text)
      case None => Reply(SERVER_ERROR, "message", FailureMessage(mode))
  }

  /** With no entries the answer is the same whatever the generator would
      do: it is never consulted. */
  lemma EmptyNeverGenerates(mode: Mode, user: Option<User>, locale: Locale,
                            g1: Prompt -> Option<string>, g2: Prompt -> Option<string>)
    ensures Respond(mode, [], user, locale, g1) == Respond(mode, [], user, locale, g2)
    ensures Respond(mode, [], user, locale, g1).status == OK
  {
  }

  /** With entries, the reply is the generator's text for the prompt built
      from them, or a 500 when the generator fails or the user record is gone. */
  lemma ReplyIsGeneratedText(mode: Mode, es: seq<DiaryEntry>, user: Option<User>, locale: Locale,
                             generate: Prompt -> Option<string>)
    requires |es| > 0
    ensures user.None? ==>
      Respond(mode, es, user, locale, generate) == Reply(SERVER_ERROR, "message", FailureMessage(mode))
    ensures user.Some? ==>
      var out := generate(Prompt(mode, ProfileContextOf(user.value, locale), Transcript(mode, es, locale)));
      && (out.Some? ==> Respond(mode, es, user, locale, generate) == Reply(OK, ResultField(mode), out.value))
      && (out.None? ==>
            Respond(mode, es, user, locale, generate) == Reply(SERVER_ERROR, "message", FailureMessage(mode)))
  {
  }

  /** generateSummary / generateDeeperAnalysis. `entries` and `users` are the
      collections as the handler reads them; `selected` is what the entry
      query returned (empty when the request is refused before querying). */
  method Generate(mode: Mode, entries: map<EntryId, DiaryEntry>, users: map<UserId, User>,
                  caller: UserId, range: Option<string>, customStart: Option<int>,
                  customEnd: Option<int>, clock: Clock, locale: Locale,
                  generate: Prompt -> Option<string>)
    returns (reply: Reply, selected: seq<DiaryEntry>)
    requires WellKeyed(entries)
    ensures SummaryFilter(range, customStart, customEnd, clock).Err? ==>
      reply == Reply(BAD_REQUEST, "message", CUSTOM_RANGE_MESSAGE) && selected == []
    ensures SummaryFilter(range, customStart, customEnd, clock).Ok? ==>
      && IsAnswer(entries, caller, SummaryFilter(range, customStart, customEnd, clock).value, Ascending, selected)
      && reply == Respond(mode, selected, if caller in users then Some(users[caller]) else None,
                          locale, generate)
  {
    var filter := SummaryFilter(range, customStart, customEnd, clock);
    if filter.Err? {
      return Reply(BAD_REQUEST, "message", CUSTOM_RANGE_MESSAGE), [];
    }
    selected := Find(entries, caller, filter.value, Ascending);
    if |selected| == 0 {
      return Reply(OK, ResultField(mode), EmptyMessage(mode)), selected;
    }
    if caller !in users {
      return Reply(SERVER_ERROR, "message", FailureMessage(mode)), selected;
    }
    var prompt := Prompt(mode, ProfileContextOf(users[caller], locale), Transcript(mode, selected, locale));
    var generated := generate(prompt);
    if generated.None? {
      return Reply(SERVER_ERROR, "message", FailureMessage(mode)), selected;
    }
    reply := Reply(OK, ResultField(mode), generated.value);
  }
}

/**
 * The body of GET /api/ai/recommendation after the history query
 * (server.ts:148-168): the onboarding reply, the prompt sent to the
 * text-generation service, and the fallback that masks its failures.
 * The service and `JSON.parse` are parameters: `generate` yields None when
 * the call throws or returns no text, `parse` yields None on invalid JSON.
 */
module Recommendations {
  import opened Wrappers
  import opened Json
  import opened Text
  import opened Records

  datatype AiRequest = AiRequest(model: string, contents: string, responseMimeType: string)

  const AiModel := "gemini-3-flash-preview"
  const JsonMimeType := "application/json"

  const PromptHead := "Based on this meditation and mood history:\n"
  const PromptTail := "\n\nSuggest the best OM frequency and type of meditation for tomorrow. Provide calming advice in 3 sentences. Return as JSON with keys: \"frequency\", \"type\", \"advice\"."

  /** The reply for a user without moods: keys `recommendation` and `advice` only. */
  const OnboardingReply: Json := JObj([
    ("recommendation", JStr("Start your journey by logging your first mood. We suggest the 432Hz Morning OM to begin.")),
    ("advice", JStr("Consistency is key to spiritual growth."))])

  /** The reply whenever the service call or the parse of its answer fails. */
  const FallbackReply: Json := JObj([
    ("frequency", JStr("528Hz")),
    ("type", JStr("Love & Healing")),
    ("advice", JStr("Focus on your breath and let go of the day's tension. You are doing great."))])

  /** `${h.frequency}`: a NULL column renders as "null". */
  function FrequencyText(f: Option<string>): string {
    match f
    case Some(s) => s
    case None => "null"
  }

  /** One history item as the prompt quotes it. */
  function HistoryLine(m: Mood): string {
    "Rating: " + IntToString(m.rating) + "/5, Note: " + m.note
    + ", Duration: " + IntToString(m.meditationDuration) + "m, Freq: " + FrequencyText(m.frequency)
  }

  function HistoryLines(recent: seq<Mood>): (r: seq<string>)
    ensures |r| == |recent|
    ensures forall i :: 0 <= i < |r| ==> r[i] == HistoryLine(recent[i])
  {
    seq(|recent|, i requires 0 <= i < |recent| => HistoryLine(recent[i]))
  }

  /** `history.map(...).join("\n")`. */
  function HistoryText(recent: seq<Mood>): string {
    Join(HistoryLines(recent), "\n")
  }

  function Prompt(recent: seq<Mood>): string {
    PromptHead + HistoryText(recent) + PromptTail
  }

  /**
   * The reply and the request sent to the service, if any: none for an
   * empty history; otherwise the service's parsed answer, or the fallback
   * when the call or the parse fails.
   */
  function Recommend(recent: seq<Mood>, generate: AiRequest -> Option<string>, parse: string -> Option<Json>)
    : (r: (Json, Option<AiRequest>))
    ensures r.1.None? <==> |recent| == 0
    ensures |recent| == 0 ==> r.0 == OnboardingReply
    ensures r.1.Some? ==> r.1.value == AiRequest(AiModel, Prompt(recent), JsonMimeType)
    ensures r.1.Some? && generate(r.1.value).None? ==> r.0 == FallbackReply
    ensures r.1.Some? && generate(r.1.value).Some? && parse(generate(r.1.value).value).None? ==> r.0 == FallbackReply
    ensures r.1.Some? && generate(r.1.value).Some? && parse(generate(r.1.value).value).Some? ==>
              r.0 == parse(generate(r.1.value).value).value
  {
    if |recent| == 0 then (OnboardingReply, None)
    else
      var request := AiRequest(AiModel, Prompt(recent), JsonMimeType);
      var reply := match generate(request)
        case None => FallbackReply
        case Some(text) => parse(text).GetOr(FallbackReply);
      (reply, Some(request))
  }

  /** A history line has no line break unless its note or frequency has one. */
  lemma HistoryLineIsOneLine(m: Mood)
    requires '\n' !in m.note && '\n' !in FrequencyText(m.frequency)
    ensures '\n' !in HistoryLine(m)
  {
    var r, d := IntToString(m.rating), IntToString(m.meditationDuration);
    assert '\n' !in r && '\n' !in d;
    assert '\n' !in "Rating: " && '\n' !in "/5, Note: " && '\n' !in ", Duration: " && '\n' !in "m, Freq: ";
  }

  /**
   * The history text has exactly one line per mood, in order, when no note
   * or frequency itself contains a line break.
   */
  lemma HistoryTextOneLinePerMood(recent: seq<Mood>)
    requires |recent| >= 1
    requires forall i :: 0 <= i < |recent| ==> '\n' !in recent[i].note && '\n' !in FrequencyText(recent[i].frequency)
    ensures Split(HistoryText(recent), '\n') == HistoryLines(recent)
    ensures |Split(HistoryText(recent), '\n')| == |recent|
  {
    var lines := HistoryLines(recent);
    forall i | 0 <= i < |lines| ensures '\n' !in lines[i] {
      HistoryLineIsOneLine(recent[i]);
    }
    SplitJoin(lines, '\n');
  }
}

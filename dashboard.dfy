/**
 * What the `Dashboard` page derives from the two replies it fetches
 * (src/App.tsx:223-361): the chart series, the Recent Moods panel and the
 * recommendation card with its per-field fallbacks. Date formatting is not
 * modelled; a chart point keeps the `created_at` it is labelled with.
 */
module Dashboard {
  import opened Wrappers
  import opened Json
  import opened Seqs
  import opened Records
  import opened Queries
  import opened Recommendations
  import opened Server

  datatype ChartPoint = ChartPoint(createdAt: nat, rating: int)

  function CreatedAtOfPoint(p: ChartPoint): int { p.createdAt }

  /** `history.slice().reverse().map(h => ({date, rating}))`. */
  function ChartData(history: seq<Mood>): (r: seq<ChartPoint>)
    ensures |r| == |history|
    ensures forall i :: 0 <= i < |r| ==>
              r[i].rating == history[|history| - 1 - i].rating && r[i].createdAt == history[|history| - 1 - i].createdAt
  {
    var reversed := Reverse(history);
    seq(|history|, i requires 0 <= i < |history| => ChartPoint(reversed[i].createdAt, reversed[i].rating))
  }

  /** The chart of the server's history runs oldest to newest. */
  lemma ChartIsChronological(moods: seq<Mood>, uid: nat)
    requires Ascending(moods, CreatedAtOfMood)
    ensures Ascending(ChartData(History(moods, uid, 30)), CreatedAtOfPoint)
  {
    HistoryNewestFirst(moods, uid, 30);
  }

  /** `history.slice(0, 3)`: the Recent Moods panel. */
  function RecentMoods(history: seq<Mood>): (r: seq<Mood>)
    ensures |r| == Min(3, |history|)
    ensures forall i :: 0 <= i < |r| ==> r[i] == history[i]
  {
    history[..Min(3, |history|)]
  }

  /** The panel's caption, `h.note || 'Meditation Session'`. */
  function NoteLabel(m: Mood): (s: string)
    ensures s != ""
    ensures m.note != "" ==> s == m.note
    ensures m.note == "" ==> s == "Meditation Session"
  {
    if m.note != "" then m.note else "Meditation Session"
  }

  const DefaultFrequency := JStr("528Hz")
  const DefaultType := JStr("Heart Chakra Healing")
  const DefaultAdvice := JStr("Your energy is shifting towards clarity. Embrace the silence between your thoughts tomorrow.")

  /** The card's three lines; `rec` is the parsed reply, None before it arrives. */
  function ShownFrequency(rec: Option<Json>): Json { OrElse(Member(rec, "frequency"), DefaultFrequency) }
  function ShownType(rec: Option<Json>): Json { OrElse(Member(rec, "type"), DefaultType) }
  function ShownAdvice(rec: Option<Json>): Json { OrElse(Member(rec, "advice"), DefaultAdvice) }

  /**
   * Whatever GET /api/ai/recommendation replies, the card's frequency line
   * is 528Hz unless the service was called, its answer parsed, and that
   * answer has a truthy `frequency`: onboarding, fallback and error replies
   * all end on 528Hz.
   */
  lemma RecommendationCardFrequency(moods: seq<Mood>, header: Option<string>, o: Oracles)
    ensures var r := Recommendation(moods, header, o);
            var answer := if r.1.Some? && o.generate(r.1.value).Some? then o.parse(o.generate(r.1.value).value) else None;
            ShownFrequency(Some(BodyJson(r.0.body))) == OrElse(Member(answer, "frequency"), JStr("528Hz"))
  {
    var r := Recommendation(moods, header, o);
    match Authenticate(header, o.verify)
    case Reject(resp) =>
      assert resp.body.ErrorBody?;
      assert Member(Some(BodyJson(r.0.body)), "frequency") == None;
    case Pass(c) =>
      var recent := History(moods, c.id, 7);
      if |recent| == 0 {
        OnboardingCard();
      } else if o.generate(r.1.value).None? || o.parse(o.generate(r.1.value).value).None? {
        FallbackCard();
      }
  }

  /**
   * The onboarding reply has no `frequency` or `type` key, so the card shows
   * 528Hz and "Heart Chakra Healing" although the reply's text suggests 432Hz.
   */
  lemma OnboardingCard()
    ensures ShownFrequency(Some(OnboardingReply)) == JStr("528Hz")
    ensures ShownType(Some(OnboardingReply)) == JStr("Heart Chakra Healing")
    ensures ShownAdvice(Some(OnboardingReply)) == JStr("Consistency is key to spiritual growth.")
  {
  }

  /** The server's fallback reply is shown as it is. */
  lemma FallbackCard()
    ensures ShownFrequency(Some(FallbackReply)) == JStr("528Hz")
    ensures ShownType(Some(FallbackReply)) == JStr("Love & Healing")
    ensures ShownAdvice(Some(FallbackReply)) == JStr("Focus on your breath and let go of the day's tension. You are doing great.")
  {
  }

  /** An `{error}` object, like no reply at all (`recommendation` still null), shows the three defaults. */
  lemma ErrorCard(message: string)
    ensures var rec := Some(BodyJson(ErrorBody(message)));
            ShownFrequency(rec) == DefaultFrequency && ShownType(rec) == DefaultType && ShownAdvice(rec) == DefaultAdvice
    ensures ShownFrequency(None) == DefaultFrequency && ShownType(None) == DefaultType && ShownAdvice(None) == DefaultAdvice
  {
  }

  /** For a caller without moods the recommendation route's reply displays as 528Hz, with no service call. */
  lemma EmptyHistoryShows528(moods: seq<Mood>, header: Option<string>, o: Oracles)
    requires Authenticate(header, o.verify).Pass?
    requires OfUser(moods, Authenticate(header, o.verify).claims.id) == []
    ensures var r := Recommendation(moods, header, o);
            r.1 == None && ShownFrequency(Some(BodyJson(r.0.body))) == JStr("528Hz")
  {
    OnboardingCard();
  }
}

/**
 Ranking of comment candidates: score, stable sort, one pass that marks duplicates and other
 exclusions, and the choice of the response target. Reals stand for floats; candidate ids
 are numbers, compared as the id strings are; text normalisation is a parameter.
*/
module CommentRanking {
  import opened Options
  import opened StableSort

  datatype Candidate = Candidate(id: nat, eligibleAt: int, author: Option<string>, text: string)

  datatype Feature = Feature(
    recency: real, relevance: real, novelty: real, fit: real, engagement: real, fairness: real,
    priorityAdjustment: real, repetitionPenalty: real, interruptionPenalty: real)

  datatype Weights = Weights(
    recency: real, relevance: real, novelty: real, fit: real, engagement: real, fairness: real)

  datatype Settings = Settings(weights: Weights, minimumFit: real, threshold: real, normalize: string -> string)

  datatype Reason = DuplicateText | NoConversationFit | BelowThreshold | AuthorCooldown

  datatype Ranked = Ranked(id: nat, score: real, feature: Feature, rank: nat, eligible: bool, reasons: seq<Reason>)

  // ---------- Scores ----------

  /** Python's `round(x, 6)`: to the nearest millionth, ties to even. */
  function Round6(x: real): real {
    var scaled := x * 1000000.0;
    var below := scaled.Floor;
    var rest := scaled - below as real;
    (if rest < 0.5 || (rest == 0.5 && below % 2 == 0) then below else below + 1) as real / 1000000.0
  }

  function Clamp(x: real): real { if x < 0.0 then 0.0 else if x > 1.0 then 1.0 else x }

  function Score(x: real): real { Round6(Clamp(x)) }

  function Weighted(w: Weights, f: Feature): real {
    w.recency * f.recency + w.relevance * f.relevance + w.novelty * f.novelty + w.fit * f.fit
    + w.engagement * f.engagement + w.fairness * f.fairness
  }

  function Aggregate(w: Weights, f: Feature): real {
    Score(Weighted(w, f) + f.priorityAdjustment - f.repetitionPenalty - f.interruptionPenalty)
  }

  lemma ScoreBounds(x: real)
    ensures 0.0 <= Score(x) <= 1.0
    ensures -0.0000005 <= Score(x) - Clamp(x) <= 0.0000005
  {
    var scaled := Clamp(x) * 1000000.0;
    assert 0.0 <= scaled <= 1000000.0;
  }

  /** Rounding never swaps two values. */
  lemma ScoreMonotone(x: real, y: real)
    requires x <= y
    ensures Score(x) <= Score(y)
  {
    var a, b := Clamp(x) * 1000000.0, Clamp(y) * 1000000.0;
    assert a <= b;
    assert a.Floor <= b.Floor;
  }

  predicate AtMost(f: Feature, g: Feature) {
    && f.recency <= g.recency && f.relevance <= g.relevance && f.novelty <= g.novelty && f.fit <= g.fit
    && f.engagement <= g.engagement && f.fairness <= g.fairness && f.priorityAdjustment <= g.priorityAdjustment
    && g.repetitionPenalty <= f.repetitionPenalty && g.interruptionPenalty <= f.interruptionPenalty
  }

  predicate NonNegative(w: Weights) {
    w.recency >= 0.0 && w.relevance >= 0.0 && w.novelty >= 0.0 && w.fit >= 0.0 && w.engagement >= 0.0 && w.fairness >= 0.0
  }

  lemma Scaled(w: real, x: real, y: real)
    requires w >= 0.0 && x <= y
    ensures w * x <= w * y
  {
  }

  lemma SixMore(a: real, b: real, c: real, d: real, e: real, f: real, a': real, b': real, c': real, d': real, e': real, f': real)
    requires a <= a' && b <= b' && c <= c' && d <= d' && e <= e' && f <= f'
    ensures a + b + c + d + e + f <= a' + b' + c' + d' + e' + f'
  {
  }

  lemma WeightedMore(w: Weights, f: Feature, g: Feature)
    requires NonNegative(w) && AtMost(f, g)
    ensures Weighted(w, f) <= Weighted(w, g)
  {
    Scaled(w.recency, f.recency, g.recency);
    Scaled(w.relevance, f.relevance, g.relevance);
    Scaled(w.novelty, f.novelty, g.novelty);
    Scaled(w.fit, f.fit, g.fit);
    Scaled(w.engagement, f.engagement, g.engagement);
    Scaled(w.fairness, f.fairness, g.fairness);
    SixMore(w.recency * f.recency, w.relevance * f.relevance, w.novelty * f.novelty, w.fit * f.fit,
      w.engagement * f.engagement, w.fairness * f.fairness,
      w.recency * g.recency, w.relevance * g.relevance, w.novelty * g.novelty, w.fit * g.fit,
      w.engagement * g.engagement, w.fairness * g.fairness);
  }

  /** With weights that are not negative, better features and smaller penalties never lower the score. */
  lemma BetterFeaturesScoreMore(w: Weights, f: Feature, g: Feature)
    requires NonNegative(w) && AtMost(f, g)
    ensures Aggregate(w, f) <= Aggregate(w, g)
  {
    WeightedMore(w, f, g);
    ScoreMonotone(Weighted(w, f) + f.priorityAdjustment - f.repetitionPenalty - f.interruptionPenalty,
      Weighted(w, g) + g.priorityAdjustment - g.repetitionPenalty - g.interruptionPenalty);
  }

  /** Each feature counts with its own weight. */
  lemma EachFeatureCounts(w: Weights, f: Feature)
    requires f == Feature(1.0, 0.0, 0.0, 0.0, 0.0, 0.0, 0.0, 0.0, 0.0)
    ensures Aggregate(w, f) == Score(w.recency)
    ensures Aggregate(w, f.(recency := 0.0, relevance := 1.0)) == Score(w.relevance)
    ensures Aggregate(w, f.(recency := 0.0, novelty := 1.0)) == Score(w.novelty)
    ensures Aggregate(w, f.(recency := 0.0, fit := 1.0)) == Score(w.fit)
    ensures Aggregate(w, f.(recency := 0.0, engagement := 1.0)) == Score(w.engagement)
    ensures Aggregate(w, f.(recency := 0.0, fairness := 1.0)) == Score(w.fairness)
    ensures forall x, y, z :: Aggregate(w, f.(recency := 0.0, priorityAdjustment := x, repetitionPenalty := y, interruptionPenalty := z)) == Score(x - y - z)
  {
  }

  // ---------- Order ----------

  datatype Scored = Scored(candidate: Candidate, feature: Feature, score: real)

  predicate Ahead(a: Scored, b: Scored) {
    a.score > b.score
    || (a.score == b.score && (a.candidate.eligibleAt < b.candidate.eligibleAt
                               || (a.candidate.eligibleAt == b.candidate.eligibleAt && a.candidate.id < b.candidate.id)))
  }

  const ORDER: (Scored, Scored) -> bool := (a: Scored, b: Scored) => Ahead(a, b)

  function WithScores(values: seq<(Candidate, Feature)>, w: Weights): seq<Scored> {
    seq(|values|, i requires 0 <= i < |values| => Scored(values[i].0, values[i].1, Aggregate(w, values[i].1)))
  }

  function Raw(values: seq<(Candidate, Feature)>, w: Weights): seq<Scored> {
    Sort(WithScores(values, w), ORDER)
  }

  // ---------- What the ranking promises ----------

  /** Does an earlier entry have the same normalised text? */
  predicate Seen(raw: seq<Scored>, i: nat, s: Settings)
    requires i < |raw|
  {
    exists j :: 0 <= j < i && s.normalize(raw[j].candidate.text) == s.normalize(raw[i].candidate.text)
  }

  /** Entry `i` of the ranking of `raw`; `lastAuthor` is the author of the comment answered last,
      if there was one. Both may be unknown, and then count as the same author. */
  ghost predicate RankedRight(r: Ranked, raw: seq<Scored>, i: nat, s: Settings, lastAuthor: Option<Option<string>>)
    requires i < |raw|
  {
    var x := raw[i];
    && r.id == x.candidate.id && r.score == x.score && r.feature == x.feature
    && r.rank == i + 1
    && (DuplicateText in r.reasons <==> Seen(raw, i, s))
    && (NoConversationFit in r.reasons <==> x.feature.fit < s.minimumFit)
    && (BelowThreshold in r.reasons <==> x.score < s.threshold)
    && (AuthorCooldown in r.reasons <==> lastAuthor == Some(x.candidate.author))
    && (r.eligible <==> r.reasons == [])
  }

  ghost predicate IsRanking(result: seq<Ranked>, raw: seq<Scored>, s: Settings, lastAuthor: Option<Option<string>>) {
    |result| == |raw| && forall i: nat | i < |raw| :: RankedRight(result[i], raw, i, s, lastAuthor)
  }

  /** `_rank`, once the features are computed. */
  method Rank(values: seq<(Candidate, Feature)>, s: Settings, lastAuthor: Option<Option<string>>) returns (result: seq<Ranked>)
    ensures IsRanking(result, Raw(values, s.weights), s, lastAuthor)
  {
    var raw := Raw(values, s.weights);
    var seen: set<string> := {};
    result := [];
    for i := 0 to |raw|
      invariant |result| == i
      invariant forall t :: t in seen <==> Before(raw, i, t, s)
      invariant forall k: nat | k < i :: RankedRight(result[k], raw, k, s, lastAuthor)
    {
      var normalized := s.normalize(raw[i].candidate.text);
      var reasons := Exclusions(raw[i], normalized in seen, s, lastAuthor);
      BeforeNext(raw, i, s);
      seen := seen + {normalized};
      result := result + [Ranked(raw[i].candidate.id, raw[i].score, raw[i].feature, i + 1, reasons == [], reasons)];
    }
  }

  /** Does one of the first `n` entries have the normalised text `t`? */
  predicate Before(raw: seq<Scored>, n: nat, t: string, s: Settings)
    requires n <= |raw|
  {
    exists j :: 0 <= j < n && s.normalize(raw[j].candidate.text) == t
  }

  lemma BeforeNext(raw: seq<Scored>, n: nat, s: Settings)
    requires n < |raw|
    ensures forall t :: Before(raw, n + 1, t, s) <==> Before(raw, n, t, s) || t == s.normalize(raw[n].candidate.text)
    ensures Seen(raw, n, s) <==> Before(raw, n, s.normalize(raw[n].candidate.text), s)
  {
    forall t ensures Before(raw, n + 1, t, s) <==> Before(raw, n, t, s) || t == s.normalize(raw[n].candidate.text) {
      if t == s.normalize(raw[n].candidate.text) { assert Before(raw, n + 1, t, s); }
    }
  }

  method Exclusions(x: Scored, duplicate: bool, s: Settings, lastAuthor: Option<Option<string>>) returns (reasons: seq<Reason>)
    ensures DuplicateText in reasons <==> duplicate
    ensures NoConversationFit in reasons <==> x.feature.fit < s.minimumFit
    ensures BelowThreshold in reasons <==> x.score < s.threshold
    ensures AuthorCooldown in reasons <==> lastAuthor == Some(x.candidate.author)
  {
    reasons := if duplicate then [DuplicateText] else [];
    if x.feature.fit < s.minimumFit { reasons := reasons + [NoConversationFit]; }
    if x.score < s.threshold { reasons := reasons + [BelowThreshold]; }
    if lastAuthor == Some(x.candidate.author) { reasons := reasons + [AuthorCooldown]; }
  }

  // ---------- Consequences ----------

  /** The ranking lists the pool, each candidate as often as it is there, by score descending,
      then oldest first, then by id; ranks are 1..n and scores lie in [0,1]. */
  lemma RankingOrdersPool(values: seq<(Candidate, Feature)>, s: Settings, lastAuthor: Option<Option<string>>, result: seq<Ranked>)
    requires IsRanking(result, Raw(values, s.weights), s, lastAuthor)
    ensures multiset(Raw(values, s.weights)) == multiset(WithScores(values, s.weights))
    ensures |result| == |values|
    ensures forall i | 0 <= i < |result| :: result[i].rank == i + 1 && 0.0 <= result[i].score <= 1.0
    ensures forall i, j | 0 <= i < j < |result| :: result[i].score >= result[j].score
    ensures forall i, j | 0 <= i < j < |result| && result[i].score == result[j].score ::
              var a, b := Raw(values, s.weights)[i].candidate, Raw(values, s.weights)[j].candidate;
              a.eligibleAt < b.eligibleAt || (a.eligibleAt == b.eligibleAt && a.id <= b.id)
  {
    var raw := Raw(values, s.weights);
    SortCorrect(WithScores(values, s.weights), ORDER);
    assert forall i, j | 0 <= i < j < |raw| :: !ORDER(raw[j], raw[i]);
    forall i: nat | i < |raw| ensures result[i].rank == i + 1 && 0.0 <= result[i].score <= 1.0 {
      assert RankedRight(result[i], raw, i, s, lastAuthor);
      assert raw[i] in raw;
      var k :| 0 <= k < |values| && WithScores(values, s.weights)[k] == raw[i];
      ScoreInRange(s.weights, values[k].1);
    }
    forall i: nat, j: nat | i < j < |raw|
      ensures result[i].score >= result[j].score
      ensures result[i].score == result[j].score ==>
                raw[i].candidate.eligibleAt < raw[j].candidate.eligibleAt
                || (raw[i].candidate.eligibleAt == raw[j].candidate.eligibleAt && raw[i].candidate.id <= raw[j].candidate.id)
    {
      assert RankedRight(result[i], raw, i, s, lastAuthor) && RankedRight(result[j], raw, j, s, lastAuthor);
      assert !ORDER(raw[j], raw[i]);
    }
  }

  lemma ScoreInRange(w: Weights, f: Feature)
    ensures 0.0 <= Aggregate(w, f) <= 1.0
  {
    ScoreBounds(Weighted(w, f) + f.priorityAdjustment - f.repetitionPenalty - f.interruptionPenalty);
  }

  predicate SameText(raw: seq<Scored>, i: nat, j: nat, s: Settings)
    requires i < |raw| && j < |raw|
  {
    s.normalize(raw[i].candidate.text) == s.normalize(raw[j].candidate.text)
  }

  /** Among the entries with the text of entry `i` exactly one is not a duplicate: the best ranked. */
  lemma {:induction false} OneOriginalPerText(result: seq<Ranked>, raw: seq<Scored>, s: Settings, lastAuthor: Option<Option<string>>, i: nat)
    returns (first: nat)
    requires IsRanking(result, raw, s, lastAuthor) && i < |raw|
    ensures first <= i && SameText(raw, first, i, s)
    ensures forall j: nat | j < |raw| && SameText(raw, j, i, s) :: first <= j
    ensures forall j: nat | j < |raw| && SameText(raw, j, i, s) :: DuplicateText in result[j].reasons <==> j != first
  {
    first := FirstWith(raw, s, i);
    forall j: nat | j < |raw| && SameText(raw, j, i, s) ensures DuplicateText in result[j].reasons <==> j != first {
      assert RankedRight(result[j], raw, j, s, lastAuthor);
      assert SameText(raw, first, i, s);
      if j == first && Seen(raw, j, s) {
        var k :| 0 <= k < j && s.normalize(raw[k].candidate.text) == s.normalize(raw[j].candidate.text);
        assert SameText(raw, k, i, s);
      }
    }
  }

  lemma {:induction false} FirstWith(raw: seq<Scored>, s: Settings, i: nat) returns (first: nat)
    requires i < |raw|
    ensures first <= i && SameText(raw, first, i, s)
    ensures forall j: nat | j < |raw| && SameText(raw, j, i, s) :: first <= j
  {
    if j: nat :| j < i && SameText(raw, j, i, s) {
      first := FirstWith(raw, s, j);
      assert forall k: nat | k < |raw| && SameText(raw, k, i, s) :: SameText(raw, k, j, s);
    } else {
      first := i;
    }
  }

  // ---------- The choice ----------

  /** The target of `_select`: the first eligible entry, looked up in the pool by its id; the
      ranking is saved too. */
  method Choose(values: seq<(Candidate, Feature)>, s: Settings, lastAuthor: Option<Option<string>>)
    returns (target: Option<(Candidate, Ranked)>, result: seq<Ranked>)
    ensures IsRanking(result, Raw(values, s.weights), s, lastAuthor)
    ensures target.None? <==> forall i | 0 <= i < |result| :: !result[i].eligible
    ensures target.Some? ==>
              var (candidate, entry) := target.value;
              && entry in result && entry.eligible && candidate.id == entry.id
              && (exists i | 0 <= i < |values| :: values[i].0 == candidate)
              && (forall i | 0 <= i < |result| && result[i].eligible :: result[i].rank >= entry.rank && result[i].score <= entry.score)
  {
    result := Rank(values, s, lastAuthor);
    RankingOrdersPool(values, s, lastAuthor, result);
    var first := FirstEligible(result);
    if first == |result| { return None, result; }
    InPool(values, s, lastAuthor, result, first);
    var candidate := Lookup(values, result[first].id);
    target := Some((candidate, result[first]));
  }

  method FirstEligible(result: seq<Ranked>) returns (first: nat)
    ensures first <= |result| && forall k | 0 <= k < first :: !result[k].eligible
    ensures first < |result| ==> result[first].eligible
  {
    first := 0;
    while first < |result| && !result[first].eligible
      invariant first <= |result| && forall k | 0 <= k < first :: !result[k].eligible
    {
      first := first + 1;
    }
  }

  /** Every ranked entry is a pool member with that id. */
  lemma InPool(values: seq<(Candidate, Feature)>, s: Settings, lastAuthor: Option<Option<string>>, result: seq<Ranked>, i: nat)
    requires IsRanking(result, Raw(values, s.weights), s, lastAuthor) && i < |result|
    ensures exists k | 0 <= k < |values| :: values[k].0.id == result[i].id && values[k].1 == result[i].feature
  {
    var raw := Raw(values, s.weights);
    SortCorrect(WithScores(values, s.weights), ORDER);
    assert RankedRight(result[i], raw, i, s, lastAuthor);
    assert raw[i] in raw;
    var k :| 0 <= k < |values| && WithScores(values, s.weights)[k] == raw[i];
    assert values[k].0.id == result[i].id && values[k].1 == result[i].feature;
  }

  method Lookup(values: seq<(Candidate, Feature)>, id: nat) returns (candidate: Candidate)
    requires exists k | 0 <= k < |values| :: values[k].0.id == id
    ensures exists k | 0 <= k < |values| :: values[k].0 == candidate && candidate.id == id
                                            && forall j | 0 <= j < k :: values[j].0.id != id
  {
    var i := 0;
    while values[i].0.id != id
      invariant 0 <= i < |values|
      invariant forall j | 0 <= j < i :: values[j].0.id != id
      decreases |values| - i
    {
      i := i + 1;
    }
    candidate := values[i].0;
  }

  /** An eligible entry is the best ranked of its text: a comment that repeats a better ranked
      one is never chosen, not even when that one is itself excluded. */
  lemma EligibleIsOriginal(result: seq<Ranked>, raw: seq<Scored>, s: Settings, lastAuthor: Option<Option<string>>, i: nat, j: nat)
    requires IsRanking(result, raw, s, lastAuthor) && i < |raw| && j < |raw| && SameText(raw, i, j, s)
    requires result[i].eligible
    ensures i <= j
    ensures result[j].eligible ==> i == j
  {
    var first := OneOriginalPerText(result, raw, s, lastAuthor, i);
    assert RankedRight(result[i], raw, i, s, lastAuthor) && RankedRight(result[j], raw, j, s, lastAuthor);
  }
}

/** The derived figures of the business analysis report, all pure functions of
    the rating (integer tenths) and the review count. `Math.round` is taken over
    exact reals; lemmas reduce each figure to an integer closed form. */
module ReportTemplate {
  import opened Js
  import opened BusinessContext

  // ---------------------------------------------------------------------------
  // Tiers
  // ---------------------------------------------------------------------------

  datatype Performance = Excellent | VeryGood | Good | NeedsImprovement

  /** Higher is better. */
  function PerformanceRank(p: Performance): nat {
    match p
    case Excellent => 3
    case VeryGood => 2
    case Good => 1
    case NeedsImprovement => 0
  }

  /** `getPerformanceLevel`: the tier counts how many of the thresholds 3.5,
      4.0 and 4.5 the rating reaches. */
  function PerformanceLevel(rating: int): (p: Performance)
    ensures PerformanceRank(p) == (if rating >= 35 then 1 else 0) + (if rating >= 40 then 1 else 0) + (if rating >= 45 then 1 else 0)
  {
    if rating >= 45 then Excellent
    else if rating >= 40 then VeryGood
    else if rating >= 35 then Good
    else NeedsImprovement
  }

  /** A higher rating never earns a lower tier. */
  lemma PerformanceMonotone(r1: int, r2: int)
    requires r1 <= r2
    ensures PerformanceRank(PerformanceLevel(r1)) <= PerformanceRank(PerformanceLevel(r2))
  {
  }

  datatype Engagement = High | MediumHigh | Medium | Growing

  function EngagementRank(e: Engagement): nat {
    match e
    case High => 3
    case MediumHigh => 2
    case Medium => 1
    case Growing => 0
  }

  /** `getEngagementLevel`: the tier counts how many of the thresholds 75, 150
      and 300 reviews the count reaches. */
  function EngagementLevel(reviews: int): (e: Engagement)
    ensures EngagementRank(e) == (if reviews >= 75 then 1 else 0) + (if reviews >= 150 then 1 else 0) + (if reviews >= 300 then 1 else 0)
  {
    if reviews >= 300 then High
    else if reviews >= 150 then MediumHigh
    else if reviews >= 75 then Medium
    else Growing
  }

  datatype CompetitiveRank = Top10 | Top25 | Top50

  /** `competitiveRank`: the performance tier with Good and Needs Improvement
      merged. */
  function Competitive(rating: int): (c: CompetitiveRank)
    ensures c == Top10 <==> PerformanceLevel(rating) == Excellent
    ensures c == Top25 <==> PerformanceLevel(rating) == VeryGood
    ensures c == Top50 <==> PerformanceRank(PerformanceLevel(rating)) <= 1
  {
    if rating >= 45 then Top10 else if rating >= 40 then Top25 else Top50
  }

  // ---------------------------------------------------------------------------
  // Scores
  // ---------------------------------------------------------------------------

  /** `Math.round`: the nearest integer, halves rounded up. */
  function Round(x: real): (n: int)
    ensures x - 0.5 < n as real <= x + 0.5
  {
    (x + 0.5).Floor
  }

  /** `Math.round(85 + (rating - 3.5) * 10)` with `rating` in tenths: fifty
      plus the rating in tenths. */
  function SeoScore(rating: int): (score: int)
    ensures score == 50 + rating
  {
    var x := 85.0 + ((rating as real) / 10.0 - 3.5) * 10.0;
    assert x == (50 + rating) as real;
    Round(x)
  }

  /** `Math.round(70 + reviews / 10)`, before the cap: `70 + floor((reviews + 5) / 10)`. */
  function LocalVisibility(reviews: int): (v: int)
    ensures v == 70 + (reviews + 5) / 10
  {
    var q, m := (reviews + 5) / 10, (reviews + 5) % 10;
    assert reviews + 5 == 10 * q + m && 0 <= m < 10;
    var x := 70.0 + (reviews as real) / 10.0;
    assert x + 0.5 == (70 + q) as real + (m as real) / 10.0;
    assert (70 + q) as real <= x + 0.5 < (71 + q) as real;
    Round(x)
  }

  /** `Math.min(localVisibility, 100)`: what the report shows. */
  function ReportedVisibility(reviews: int): (v: int)
    ensures v <= 100
    ensures v == 100 || v == LocalVisibility(reviews)
  {
    if LocalVisibility(reviews) < 100 then LocalVisibility(reviews) else 100
  }

  /** More reviews never lower the reported visibility, which reaches its cap
      from 295 reviews on. */
  lemma ReportedVisibilityMonotone(a: int, b: int)
    requires a <= b
    ensures ReportedVisibility(a) <= ReportedVisibility(b)
    ensures ReportedVisibility(a) == 100 <==> a >= 295
  {
  }

  // ---------------------------------------------------------------------------
  // Recommendations and insights
  // ---------------------------------------------------------------------------

  const ImproveSatisfaction := "Focus on improving customer satisfaction to increase rating"
  const MaintainService := "Maintain excellent customer service standards"
  const EncourageReviews := "Encourage more customers to leave reviews"
  const ContinueEngaging := "Continue engaging with customer feedback"
  const OptimizeSeo := "Optimize website content for better SEO performance"
  const MaintainSeo := "Maintain current SEO optimization strategies"
  const UpdateListing := "Regularly update business information on Google My Business"
  const RespondPromptly := "Respond promptly to customer reviews and feedback"

  /** Five recommendations: the first three depend on the rating, the review
      count and the SEO score (so, in the end, on the rating and the review
      count only), the last two are always given. */
  function Recommendations(rating: int, reviews: int): (rs: seq<string>)
    ensures |rs| == 5
    ensures rs[0] == ImproveSatisfaction <==> rating < 40
    ensures rs[0] == MaintainService <==> rating >= 40
    ensures rs[1] == EncourageReviews <==> reviews < 100
    ensures rs[1] == ContinueEngaging <==> reviews >= 100
    ensures rs[2] == OptimizeSeo <==> rating < 40
    ensures rs[2] == MaintainSeo <==> rating >= 40
    ensures rs[3..] == [UpdateListing, RespondPromptly]
  {
    [ if rating < 40 then ImproveSatisfaction else MaintainService,
      if reviews < 100 then EncourageReviews else ContinueEngaging,
      if SeoScore(rating) < 90 then OptimizeSeo else MaintainSeo,
      UpdateListing,
      RespondPromptly ]
  }

  /** `[...].filter(Boolean)` over a list of strings-or-null: the present
      entries, in order. */
  function Compact<T>(s: seq<Option<T>>): (r: seq<T>)
    ensures |r| <= |s|
    ensures forall x :: x in r ==> Some(x) in s
  {
    if s == [] then [] else
      (if s[0].Some? then [s[0].value] else []) + Compact(s[1..])
  }

  /** Filtering distributes over concatenation, so it keeps the source order. */
  lemma {:induction false} CompactAppend<T>(a: seq<Option<T>>, b: seq<Option<T>>)
    ensures Compact(a + b) == Compact(a) + Compact(b)
    decreases |a|
  {
    if a == [] {
      assert a + b == b;
    } else {
      assert (a + b)[0] == a[0];
      assert (a + b)[1..] == a[1..] + b;
      CompactAppend(a[1..], b);
    }
  }

  /** An entry survives filtering exactly when it was present. */
  lemma {:induction false} CompactMember<T>(s: seq<Option<T>>, x: T)
    ensures x in Compact(s) <==> Some(x) in s
    decreases |s|
  {
    if s != [] {
      CompactMember(s[1..], x);
      assert s == [s[0]] + s[1..];
    }
  }

  const StrongSatisfaction := "Strong customer satisfaction"
  const GoodReviewVolume := "Good review volume"
  const SolidSeo := "Solid SEO foundation"
  const SatisfactionAttention := "Customer satisfaction needs attention"
  const LowReviewCount := "Low review count"
  const SeoRequired := "SEO optimization required"

  /** `strengths`: at most three entries, each one of the three strength texts. */
  function Strengths(rating: int, reviews: int): (s: seq<string>)
    ensures |s| <= 3
    ensures forall x :: x in s ==> x == StrongSatisfaction || x == GoodReviewVolume || x == SolidSeo
  {
    Compact([ if rating >= 40 then Some(StrongSatisfaction) else None,
              if reviews >= 100 then Some(GoodReviewVolume) else None,
              if SeoScore(rating) >= 85 then Some(SolidSeo) else None ])
  }

  /** `improvements`: at most three entries, each one of the three improvement texts. */
  function Improvements(rating: int, reviews: int): (s: seq<string>)
    ensures |s| <= 3
    ensures forall x :: x in s ==> x == SatisfactionAttention || x == LowReviewCount || x == SeoRequired
  {
    Compact([ if rating < 40 then Some(SatisfactionAttention) else None,
              if reviews < 50 then Some(LowReviewCount) else None,
              if SeoScore(rating) < 80 then Some(SeoRequired) else None ])
  }

  /** Each strength appears exactly when its condition holds. */
  lemma StrengthsListed(rating: int, reviews: int)
    ensures StrongSatisfaction in Strengths(rating, reviews) <==> rating >= 40
    ensures GoodReviewVolume in Strengths(rating, reviews) <==> reviews >= 100
    ensures SolidSeo in Strengths(rating, reviews) <==> rating >= 35
    ensures Strengths(rating, reviews) == [] ==> rating < 35 && reviews < 100
  {
    var opts := [ if rating >= 40 then Some(StrongSatisfaction) else None,
                  if reviews >= 100 then Some(GoodReviewVolume) else None,
                  if SeoScore(rating) >= 85 then Some(SolidSeo) else None ];
    CompactMember(opts, StrongSatisfaction);
    CompactMember(opts, GoodReviewVolume);
    CompactMember(opts, SolidSeo);
  }

  /** Each improvement appears exactly when its condition holds. */
  lemma ImprovementsListed(rating: int, reviews: int)
    ensures SatisfactionAttention in Improvements(rating, reviews) <==> rating < 40
    ensures LowReviewCount in Improvements(rating, reviews) <==> reviews < 50
    ensures SeoRequired in Improvements(rating, reviews) <==> rating < 30
  {
    var opts := [ if rating < 40 then Some(SatisfactionAttention) else None,
                  if reviews < 50 then Some(LowReviewCount) else None,
                  if SeoScore(rating) < 80 then Some(SeoRequired) else None ];
    CompactMember(opts, SatisfactionAttention);
    CompactMember(opts, LowReviewCount);
    CompactMember(opts, SeoRequired);
  }

  /** The report praises satisfaction exactly when it does not flag it. */
  lemma SatisfactionExclusive(rating: int, reviews: int)
    ensures StrongSatisfaction in Strengths(rating, reviews)
        <==> SatisfactionAttention !in Improvements(rating, reviews)
  {
    StrengthsListed(rating, reviews);
    ImprovementsListed(rating, reviews);
  }

  // ---------------------------------------------------------------------------
  // The report
  // ---------------------------------------------------------------------------

  datatype Metrics = Metrics(
    rating: int, reviews: int, seoScore: int, localVisibility: int,
    competitiveRank: CompetitiveRank, performance: Performance, engagement: Engagement)

  datatype Report = Report(
    name: string, location: string, metrics: Metrics, headline: string,
    recommendations: seq<string>, strengths: seq<string>, improvements: seq<string>)

  /** `reportData` for a business record (report id and date left out). */
  function MakeReport(d: BusinessData): (rep: Report)
    ensures rep.metrics.localVisibility <= 100
    ensures rep.metrics.seoScore == 50 + d.rating
    ensures |rep.recommendations| == 5 && |rep.strengths| <= 3 && |rep.improvements| <= 3
    ensures rep.name == d.name && rep.location == d.location && rep.headline == d.headline
  {
    Report(
      d.name, d.location,
      Metrics(d.rating, d.reviews, SeoScore(d.rating), ReportedVisibility(d.reviews),
              Competitive(d.rating), PerformanceLevel(d.rating), EngagementLevel(d.reviews)),
      d.headline,
      Recommendations(d.rating, d.reviews),
      Strengths(d.rating, d.reviews),
      Improvements(d.rating, d.reviews))
  }
}

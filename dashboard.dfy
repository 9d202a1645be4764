/** How the pieces meet: a form that passes client-side validation is never
    refused by the server, and every record the server can generate shows four
    and a half stars and earns the same tiers in the report. */
module Dashboard {
  import opened Js
  import opened BusinessContext
  import opened Server
  import opened ApiClient
  import opened BusinessForm
  import opened BusinessDisplay
  import opened ReportTemplate

  /** The record the client reads out of a successful `/business-data` body. */
  function Received(ins: Insight): BusinessData {
    BusinessData(ins.name, ins.location, ins.rating, ins.reviews, ins.headline)
  }

  /** A form that passes `validateForm` (both trimmed fields at least two code
      units long), sent through `getBusinessData`, is accepted by the server,
      which echoes exactly the trimmed values: its own trim changes nothing. */
  lemma SubmittedFormIsAccepted(name: string, location: string, draws: Draws)
    requires ErrorsFor(name, location) == map[]
    ensures var body := BusinessDataRequest(name, location).body.value;
      var r := HandleBusinessData(Text(body.name), Text(body.location), draws);
      && r.Ok?
      && r.body.name == Trim(name) && r.body.location == Trim(location)
      && 41 <= r.body.rating <= 48
  {
    assert BusinessDataRequest(name, location).body.value == FormData(Trim(name), Trim(location));
    ValidIffBothLongEnough(name, location);
    TrimIdempotent(name);
    TrimIdempotent(location);
  }

  /** Every generated rating (4.1 to 4.8) renders as four full stars and a half. */
  lemma GeneratedRatingStars(rating: int)
    requires 41 <= rating <= 48
    ensures StarRow(rating) == [Full, Full, Full, Full, Half]
  {
    assert FullStars(rating) == 4 && HasHalfStar(rating) && CeilStars(rating) == 5;
    assert Run(Full, 4) == Run(Full, 3) + [Full];
    assert Run(Full, 3) == Run(Full, 2) + [Full];
    assert Run(Full, 2) == Run(Full, 1) + [Full];
  }

  /** The report for any generated record: at least "very good" and in the top
      25%, "strong customer satisfaction" and "solid SEO foundation" among the
      strengths, and no improvement other than the low review count, which
      appears only for the smallest pool value, 45 reviews. */
  lemma GeneratedRecordReport(n: string, l: string, draws: Draws)
    ensures var rep := MakeReport(Received(Generate(n, l, draws)));
      && PerformanceRank(rep.metrics.performance) >= 2
      && rep.metrics.competitiveRank != Top50
      && StrongSatisfaction in rep.strengths && SolidSeo in rep.strengths
      && (forall x :: x in rep.improvements ==> x == LowReviewCount)
      && (LowReviewCount in rep.improvements <==> rep.metrics.reviews == 45)
  {
    var d := Received(Generate(n, l, draws));
    StrengthsListed(d.rating, d.reviews);
    ImprovementsListed(d.rating, d.reviews);
  }

  /** The regenerate button stays enabled while a submitted form's request is
      pending, so the two requests can settle in either order. When the
      business-data response settles first, the headline generated for the old
      record lands on the new one: the stored record then carries the fetched
      business's name, location, rating and reviews under a headline asked for
      the business shown before. */
  lemma RegenerateRacesSubmit(s: BusinessState, fetched: BusinessData, headline: string)
    requires s.businessData.Some?
    ensures var asked := s.businessData.value;
      var t1 := Reduce(s, SubmitOutcome(Replied(Reply(200, "", Success(fetched)))));
      var t2 := Reduce(t1, RegenerateOutcome(Replied(Reply(200, "", Success(headline)))));
      && t2.businessData == Some(fetched.(headline := headline))
      && (fetched.name != asked.name ==> t2.businessData.value.name != asked.name)
  {
  }
}

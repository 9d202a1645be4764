/** The business card: nothing while there is no record; otherwise the record's
    fields, a row of five stars for the rating (integer tenths), and a button
    that fetches a new headline and dispatches the outcome. */
module BusinessDisplay {
  import opened Js
  import opened BusinessContext

  // ---------------------------------------------------------------------------
  // Stars
  // ---------------------------------------------------------------------------

  datatype Star = Full | Half | Empty

  /** Position in the row: full stars first, then the half star, then empty ones. */
  function StarOrder(s: Star): nat {
    match s
    case Full => 0
    case Half => 1
    case Empty => 2
  }

  function Max0(n: int): nat {
    if n < 0 then 0 else n
  }

  /** What a `for (i = 0; i < n; i++) stars.push(x)` loop appends: `n` copies
      of `x`, none when `n` is not positive. */
  function Run(x: Star, n: int): (r: seq<Star>)
    ensures |r| == Max0(n)
    ensures forall k :: 0 <= k < |r| ==> r[k] == x
    decreases Max0(n)
  {
    if n <= 0 then [] else Run(x, n - 1) + [x]
  }

  /** `Math.floor(rating)` */
  function FullStars(rating: int): int {
    rating / 10
  }

  /** `rating % 1 !== 0` */
  predicate HasHalfStar(rating: int) {
    rating % 10 != 0
  }

  /** `Math.ceil(rating)`: the least whole number of stars not below the rating. */
  function CeilStars(rating: int): (c: int)
    ensures 10 * c - 10 < rating <= 10 * c
  {
    (rating + 9) / 10
  }

  /** The row `renderStars` builds, described by its three runs. */
  function StarRow(rating: int): seq<Star> {
    Run(Full, FullStars(rating))
      + (if HasHalfStar(rating) then [Half] else [])
      + Run(Empty, 5 - CeilStars(rating))
  }

  /** `renderStars`: three loops pushing onto one array. */
  method RenderStars(rating: int) returns (stars: seq<Star>)
    ensures stars == StarRow(rating)
  {
    stars := [];
    var fullStars := rating / 10;
    var hasHalfStar := rating % 10 != 0;
    var i := 0;
    while i < fullStars
      invariant 0 <= i <= Max0(fullStars)
      invariant stars == Run(Full, i)
    {
      stars := stars + [Full];
      i := i + 1;
    }
    assert stars == Run(Full, fullStars);
    if hasHalfStar {
      stars := stars + [Half];
    }
    var prefix := stars;
    var remainingStars := 5 - (rating + 9) / 10;
    i := 0;
    while i < remainingStars
      invariant 0 <= i <= Max0(remainingStars)
      invariant stars == prefix + Run(Empty, i)
    {
      stars := stars + [Empty];
      i := i + 1;
    }
  }

  /** For a rating between 0 and 5 the row has exactly five stars. */
  lemma StarRowHasFive(rating: int)
    requires 0 <= rating <= 50
    ensures |StarRow(rating)| == 5
  {
    var c := CeilStars(rating);
    assert c == FullStars(rating) + (if HasHalfStar(rating) then 1 else 0);
  }

  /** `floor(rating)` full stars, one half star exactly when the rating has a
      fractional part, and `max(0, 5 - ceil(rating))` empty stars. */
  lemma StarRowCounts(rating: int)
    ensures multiset(StarRow(rating))[Full] == Max0(FullStars(rating))
    ensures multiset(StarRow(rating))[Half] == (if HasHalfStar(rating) then 1 else 0)
    ensures multiset(StarRow(rating))[Empty] == Max0(5 - CeilStars(rating))
  {
    var a := Run(Full, FullStars(rating));
    var h: seq<Star> := if HasHalfStar(rating) then [Half] else [];
    var e := Run(Empty, 5 - CeilStars(rating));
    assert StarRow(rating) == a + h + e;
    var m := multiset(a) + multiset(h) + multiset(e);
    assert multiset(StarRow(rating)) == m;
    RunCounts(Full, FullStars(rating));
    RunCounts(Empty, 5 - CeilStars(rating));
    assert multiset(a)[Full] == Max0(FullStars(rating)) && multiset(a)[Half] == 0 && multiset(a)[Empty] == 0;
    assert multiset(e)[Empty] == Max0(5 - CeilStars(rating)) && multiset(e)[Full] == 0 && multiset(e)[Half] == 0;
    assert multiset(h)[Full] == 0 && multiset(h)[Empty] == 0;
  }

  lemma {:induction false} RunCounts(x: Star, n: int)
    ensures forall y :: multiset(Run(x, n))[y] == if y == x then Max0(n) else 0
    decreases Max0(n)
  {
    if n > 0 {
      RunCounts(x, n - 1);
      assert multiset(Run(x, n)) == multiset(Run(x, n - 1)) + multiset{x};
    }
  }

  /** All full stars come first, then the half star, then the empty ones. */
  lemma StarRowOrdered(rating: int)
    ensures forall i, j ::
              0 <= i < j < |StarRow(rating)| ==> StarOrder(StarRow(rating)[i]) <= StarOrder(StarRow(rating)[j])
  {
    var a := Run(Full, FullStars(rating));
    var h: seq<Star> := if HasHalfStar(rating) then [Half] else [];
    var e := Run(Empty, 5 - CeilStars(rating));
    var row := StarRow(rating);
    assert row == a + h + e;
    forall k | 0 <= k < |row|
      ensures StarOrder(row[k]) == (if k < |a| then 0 else if k < |a| + |h| then 1 else 2)
    {
      if k < |a| { assert row[k] == a[k]; }
      else if k < |a| + |h| { assert row[k] == h[k - |a|]; }
      else { assert row[k] == e[k - |a| - |h|]; }
    }
  }

  // ---------------------------------------------------------------------------
  // The card
  // ---------------------------------------------------------------------------

  datatype Card = Card(name: string, location: string, rating: int, reviews: int, headline: string, stars: seq<Star>)

  /** The component renders nothing without a record, and otherwise shows the
      record's own fields with its star row. */
  function Render(s: BusinessState): (c: Option<Card>)
    ensures c.None? <==> s.businessData.None?
    ensures c.Some? ==>
      var d := s.businessData.value;
      && c.value.name == d.name && c.value.location == d.location
      && c.value.rating == d.rating && c.value.reviews == d.reviews
      && c.value.headline == d.headline && c.value.stars == StarRow(d.rating)
  {
    if s.businessData.None? then None
    else
      var d := s.businessData.value;
      Some(Card(d.name, d.location, d.rating, d.reviews, d.headline, StarRow(d.rating)))
  }

  // ---------------------------------------------------------------------------
  // Regenerating the headline
  // ---------------------------------------------------------------------------

  const RegenerateFailed := "Failed to regenerate headline. Please try again."

  /** The action dispatched once the regenerate request settles: the new
      headline when the response is `ok` and its JSON parses, an error otherwise
      (rejected fetch, non-`ok` status, or a body that is not JSON). */
  function RegenerateOutcome(reply: Fetch<string>): (a: Action)
    ensures a.UpdateHeadline? <==> reply.Replied? && reply.reply.Ok() && reply.reply.json.Success?
    ensures a.UpdateHeadline? ==> a.headline == reply.reply.json.value
    ensures !a.UpdateHeadline? ==> a == SetError(Some(RegenerateFailed))
  {
    match reply
    case Rejected(_) => SetError(Some(RegenerateFailed))
    case Replied(r) =>
      if !r.Ok() then SetError(Some(RegenerateFailed))
      else match r.json
        case Failure(_) => SetError(Some(RegenerateFailed))
        case Success(h) => UpdateHeadline(h)
  }

  /** Whatever the request does, the record stays present with its name,
      location, rating and reviews; only a successful request changes the
      headline, and only a failed one sets the error. */
  lemma RegenerateKeepsRecord(s: BusinessState, reply: Fetch<string>)
    requires s.businessData.Some?
    ensures var r := Reduce(s, RegenerateOutcome(reply));
      && r.businessData.Some?
      && r.businessData.value.(headline := s.businessData.value.headline) == s.businessData.value
      && r.formData == s.formData && !r.loading
      && (r.error == None <==> RegenerateOutcome(reply).UpdateHeadline?)
  {
  }

  /** The mounted component: its `regenerating` flag and the shared store. */
  class Display {
    const store: Store
    var regenerating: bool

    constructor(store: Store)
      ensures this.store == store && !regenerating
    {
      this.store := store;
      regenerating := false;
    }

    /** `handleRegenerateHeadline` up to its `await`: sets `regenerating` and
        asks for a headline for the shown record's own name and location. The
        button exists only while a record is shown. */
    method BeginRegenerate() returns (sent: FormData)
      requires store.state.businessData.Some?
      modifies this`regenerating
      ensures regenerating
      ensures sent == FormData(store.state.businessData.value.name, store.state.businessData.value.location)
    {
      regenerating := true;
      var d := store.state.businessData.value;
      sent := FormData(d.name, d.location);
    }

    /** `handleRegenerateHeadline` after its `await`: the outcome is reduced
        into whatever state the store holds when the request settles, and the
        flag is cleared. */
    method FinishRegenerate(reply: Fetch<string>)
      modifies this`regenerating, store
      ensures !regenerating
      ensures store.state == Reduce(old(store.state), RegenerateOutcome(reply))
    {
      store.Dispatch(RegenerateOutcome(reply));
      regenerating := false;
    }

    /** `handleRegenerateHeadline` run without anything else dispatched while
        its request is pending: it asks with the record's own name and location
        and keeps that record, with the headline replaced on success. */
    method HandleRegenerateHeadline(reply: Fetch<string>) returns (sent: FormData)
      requires store.state.businessData.Some?
      modifies this, store
      ensures !regenerating
      ensures sent == FormData(old(store.state.businessData.value.name), old(store.state.businessData.value.location))
      ensures store.state == Reduce(old(store.state), RegenerateOutcome(reply))
    {
      sent := BeginRegenerate();
      FinishRegenerate(reply);
    }
  }
}

/** The Insight Service's two business handlers: `POST /business-data`
    validates `{name, location}` and synthesises a rating, a review count and a
    headline from fixed pools; `GET /regenerate-headline` draws a fresh headline.
    Each `Math.random()` call is an injected `Unit`. Ratings are integer tenths. */
module Server {
  import opened Js

  // ---------------------------------------------------------------------------
  // Inputs
  // ---------------------------------------------------------------------------

  /** A field of the parsed JSON body: what matters is its JavaScript type and
      whether it is truthy. `Compound` is an object or an array. */
  datatype JsonValue = Undefined | Null | Bool(b: bool) | Number(x: real) | NaN | Text(s: string) | Compound

  /** JavaScript truthiness (`!v` is false): every value except the six falsy
      ones, `undefined`, `null`, `NaN`, `false`, `0` and the empty string. */
  function Truthy(v: JsonValue): (t: bool)
    ensures !t <==> v in {Undefined, Null, NaN, Bool(false), Number(0.0), Text("")}
  {
    match v
    case Undefined => false
    case Null => false
    case NaN => false
    case Bool(b) => b
    case Number(x) => x != 0.0
    case Text(s) => s != ""
    case Compound => true
  }

  /** A query-string parameter as Express parses it: absent, one value, a
      repeated key (an array), or a bracketed key (an object). */
  datatype QueryValue = Absent | Param(s: string) | Repeated(values: seq<string>) | Nested

  predicate QueryTruthy(v: QueryValue) {
    match v
    case Absent => false
    case Param(s) => s != ""
    case Repeated(_) => true
    case Nested => true
  }

  /** `String(v)`: a single value is itself, an array is its values joined
      with commas, so each of them occurs in the text. */
  function QueryString(v: QueryValue): (r: string)
    ensures v.Param? ==> r == v.s
    ensures v.Repeated? ==> forall k :: 0 <= k < |v.values| ==> Contains(r, v.values[k])
    ensures QueryTruthy(v) && !v.Repeated? ==> r != ""
  {
    match v
    case Absent => "undefined"
    case Param(s) => s
    case Repeated(vs) => JoinContainsParts(vs, ","); Join(vs, ",")
    case Nested => "[object Object]"
  }

  /** A value of `Math.random()`. */
  type Unit = u: real | 0.0 <= u < 1.0

  /** `Math.floor(u * n)`: always an index of an `n`-element array. */
  function PickIndex(u: Unit, n: nat): (i: nat)
    requires n > 0
    ensures i < n
    ensures i as real <= u * n as real < (i + 1) as real
  {
    ScaledBelow(u, n);
    (u * n as real).Floor
  }

  lemma ScaledBelow(u: Unit, n: nat)
    requires n > 0
    ensures 0.0 <= u * n as real < n as real
  {
    assert u * n as real <= u * n as real;
    assert (1.0 - u) * n as real > 0.0;
  }

  // ---------------------------------------------------------------------------
  // Pools
  // ---------------------------------------------------------------------------

  /** 4.1, 4.2, ..., 4.8 in tenths. */
  const RatingPool: seq<int> := [41, 42, 43, 44, 45, 46, 47, 48]

  const ReviewPool: seq<int> := [45, 67, 89, 123, 156, 189, 234, 267, 298, 334]

  /** A headline template: literal text and the two interpolation slots. */
  datatype Piece = Lit(text: string) | NameSlot | LocationSlot

  type Template = seq<Piece>

  /** Interpolate a template with a name and a location. */
  function Fill(t: Template, name: string, location: string): string {
    if t == [] then "" else PieceText(t[0], name, location) + Fill(t[1..], name, location)
  }

  function PieceText(p: Piece, name: string, location: string): string {
    match p
    case Lit(x) => x
    case NameSlot => name
    case LocationSlot => location
  }

  /** Filling a template interpolates each occurrence of a slot. */
  lemma {:induction false} FillMentions(t: Template, name: string, location: string)
    ensures NameSlot in t ==> Contains(Fill(t, name, location), name)
    ensures LocationSlot in t ==> Contains(Fill(t, name, location), location)
  {
    if t != [] {
      var rest := Fill(t[1..], name, location);
      FillMentions(t[1..], name, location);
      var head := PieceText(t[0], name, location);
      if NameSlot in t[1..] {
        ContainsWidened(rest, name, head, "");
        assert head + rest + "" == head + rest;
      }
      if LocationSlot in t[1..] {
        ContainsWidened(rest, location, head, "");
        assert head + rest + "" == head + rest;
      }
      if t[0] == NameSlot {
        assert head == name;
        ContainsAt(head + rest, name, 0);
      }
      if t[0] == LocationSlot {
        assert head == location;
        ContainsAt(head + rest, location, 0);
      }
    }
  }

  /** The seven templates of `POST /business-data`. */
  const BusinessTemplates: seq<Template> := [
    [Lit("Why "), NameSlot, Lit(" is "), LocationSlot, Lit("'s Best Kept Secret in 2025")],
    [Lit("Discover "), NameSlot, Lit(": "), LocationSlot, Lit("'s Rising Star Business")],
    [NameSlot, Lit(" in "), LocationSlot, Lit(": Where Quality Meets Excellence")],
    [Lit("Top-Rated "), NameSlot, Lit(" Transforms "), LocationSlot, Lit("'s Business Scene")],
    [NameSlot, Lit(": The "), LocationSlot, Lit(" Business Everyone's Talking About")],
    [Lit("Experience Excellence at "), NameSlot, Lit(" in "), LocationSlot],
    [NameSlot, Lit(" Sets New Standards for "), LocationSlot, Lit(" Businesses")]
  ]

  /** The nine templates of `GET /regenerate-headline`. */
  const RegenerateTemplates: seq<Template> := [
    [NameSlot, Lit(": Leading "), LocationSlot, Lit("'s Business Innovation in 2025")],
    [Lit("Why "), NameSlot, Lit(" is "), LocationSlot, Lit("'s Most Trusted Choice")],
    [NameSlot, Lit(" Redefines Excellence in "), LocationSlot],
    [Lit("Discover What Makes "), NameSlot, Lit(" "), LocationSlot, Lit("'s Premier Destination")],
    [NameSlot, Lit(": Where "), LocationSlot, Lit(" Finds Quality and Service")],
    [Lit("Experience the "), NameSlot, Lit(" Difference in "), LocationSlot],
    [NameSlot, Lit(" - "), LocationSlot, Lit("'s Award-Winning Business Solution")],
    [Lit("Join Thousands Who Choose "), NameSlot, Lit(" in "), LocationSlot],
    [NameSlot, Lit(": Elevating "), LocationSlot, Lit("'s Business Standards")]
  ]

  /** Every template of both pools interpolates both the name and the location. */
  lemma PoolsMentionBoth()
    ensures |BusinessTemplates| == 7 && |RegenerateTemplates| == 9
    ensures forall t :: t in BusinessTemplates ==> NameSlot in t && LocationSlot in t
    ensures forall t :: t in RegenerateTemplates ==> NameSlot in t && LocationSlot in t
  {
    forall t | t in BusinessTemplates ensures NameSlot in t && LocationSlot in t {
      var k :| 0 <= k < 7 && BusinessTemplates[k] == t;
      assert BusinessTemplates[k][0] == NameSlot || BusinessTemplates[k][1] == NameSlot;
    }
    forall t | t in RegenerateTemplates ensures NameSlot in t && LocationSlot in t {
      var k :| 0 <= k < 9 && RegenerateTemplates[k] == t;
      assert RegenerateTemplates[k][0] == NameSlot || RegenerateTemplates[k][1] == NameSlot;
    }
  }

  /** Any template of either pool, filled, contains both values. */
  lemma PoolHeadlineMentions(t: Template, name: string, location: string)
    requires t in BusinessTemplates || t in RegenerateTemplates
    ensures Contains(Fill(t, name, location), name)
    ensures Contains(Fill(t, name, location), location)
  {
    PoolsMentionBoth();
    FillMentions(t, name, location);
  }

  // ---------------------------------------------------------------------------
  // Handlers
  // ---------------------------------------------------------------------------

  /** A handler's answer: a 400 with its `error` field, or a 200 body. */
  datatype Response<+T> = BadRequest(error: string) | Ok(body: T) {
    function StatusCode(): int { if BadRequest? then 400 else 200 }
  }

  const MissingFields := "Missing required fields"
  const InvalidTypes := "Invalid field types"
  const EmptyFields := "Empty fields not allowed"
  const MissingParams := "Missing required query parameters"

  /** The successful `/business-data` body (`success: true`, timestamp left out). */
  datatype Insight = Insight(rating: int, reviews: int, headline: string, name: string, location: string)

  /** The three `Math.random()` draws of one request, in source order. */
  datatype Draws = Draws(rating: Unit, reviews: Unit, headline: Unit)

  /** The success branch of `POST /business-data`, one draw per pool. Whatever
      the draws, the rating and the review count come from the pools, the name
      and location are echoed, and the headline is one of the seven templates
      filled with them, so it contains both. */
  function Generate(n: string, l: string, draws: Draws): (ins: Insight)
    ensures ins.rating in RatingPool && 41 <= ins.rating <= 48
    ensures ins.reviews in ReviewPool && 45 <= ins.reviews <= 334
    ensures ins.name == n && ins.location == l
    ensures exists t :: t in BusinessTemplates && ins.headline == Fill(t, n, l)
    ensures Contains(ins.headline, n) && Contains(ins.headline, l)
  {
    var t := BusinessTemplates[PickIndex(draws.headline, |BusinessTemplates|)];
    assert t in BusinessTemplates;
    PoolHeadlineMentions(t, n, l);
    var rating := RatingPool[PickIndex(draws.rating, |RatingPool|)];
    var reviews := ReviewPool[PickIndex(draws.reviews, |ReviewPool|)];
    Insight(rating, reviews, Fill(t, n, l), n, l)
  }

  /** `POST /business-data`. The first failing check in source order decides the
      error: presence (truthiness), then type, then blank after trimming. A
      request that passes all three gets an insight for the trimmed values. */
  function HandleBusinessData(name: JsonValue, location: JsonValue, draws: Draws): (r: Response<Insight>)
    ensures !Truthy(name) || !Truthy(location) ==> r == BadRequest(MissingFields)
    ensures Truthy(name) && Truthy(location) && !(name.Text? && location.Text?)
            ==> r == BadRequest(InvalidTypes)
    ensures name.Text? && location.Text? && name.s != "" && location.s != ""
            && (Trim(name.s) == "" || Trim(location.s) == "")
            ==> r == BadRequest(EmptyFields)
    ensures r.Ok? <==> name.Text? && location.Text? && Trim(name.s) != "" && Trim(location.s) != ""
    ensures r.Ok? ==> r.body == Generate(Trim(name.s), Trim(location.s), draws)
  {
    if !Truthy(name) || !Truthy(location) then BadRequest(MissingFields)
    else if !name.Text? || !location.Text? then BadRequest(InvalidTypes)
    else
      var n, l := Trim(name.s), Trim(location.s);
      if |n| == 0 || |l| == 0 then BadRequest(EmptyFields)
      else Ok(Generate(n, l, draws))
  }

  /** A field that is missing, `null` or the empty string is refused with
      "Missing required fields", whatever the other field holds, and never gets
      a generated insight. */
  lemma MissingIsNeverOk(v: JsonValue, other: JsonValue, draws: Draws)
    requires v == Undefined || v == Null || v == Text("")
    ensures HandleBusinessData(v, other, draws) == BadRequest(MissingFields)
    ensures HandleBusinessData(other, v, draws) == BadRequest(MissingFields)
    ensures HandleBusinessData(v, other, draws).StatusCode() == 400
  {
  }

  /** `GET /regenerate-headline`: only a missing or empty parameter is refused;
      anything else is stringified, trimmed and interpolated. */
  function HandleRegenerateHeadline(name: QueryValue, location: QueryValue, draw: Unit): (r: Response<string>)
    ensures r.BadRequest? <==> !QueryTruthy(name) || !QueryTruthy(location)
    ensures r.BadRequest? ==> r.error == MissingParams
  {
    if !QueryTruthy(name) || !QueryTruthy(location) then BadRequest(MissingParams)
    else
      var n, l := Trim(QueryString(name)), Trim(QueryString(location));
      Ok(Fill(RegenerateTemplates[PickIndex(draw, |RegenerateTemplates|)], n, l))
  }

  /** A regenerated headline is one of the nine templates filled with the
      trimmed values, and contains both. */
  lemma RegeneratedHeadline(name: QueryValue, location: QueryValue, draw: Unit)
    requires QueryTruthy(name) && QueryTruthy(location)
    ensures var r := HandleRegenerateHeadline(name, location, draw);
      var n, l := Trim(QueryString(name)), Trim(QueryString(location));
      && r.Ok?
      && (exists t :: t in RegenerateTemplates && r.body == Fill(t, n, l))
      && Contains(r.body, n) && Contains(r.body, l)
  {
    var n, l := Trim(QueryString(name)), Trim(QueryString(location));
    PoolHeadlineMentions(RegenerateTemplates[PickIndex(draw, |RegenerateTemplates|)], n, l);
  }

  /** Unlike `/business-data`, which refuses them, non-empty whitespace-only
      parameters are accepted here and interpolate as empty strings. */
  lemma RegenerateAcceptsBlank(n: string, l: string, draw: Unit, draws: Draws)
    requires n != "" && l != "" && AllWhitespace(n) && AllWhitespace(l)
    ensures HandleRegenerateHeadline(Param(n), Param(l), draw)
         == Ok(Fill(RegenerateTemplates[PickIndex(draw, |RegenerateTemplates|)], "", ""))
    ensures HandleBusinessData(Text(n), Text(l), draws) == BadRequest(EmptyFields)
  {
    BlankIffAllWhitespace(n);
    BlankIffAllWhitespace(l);
  }
}

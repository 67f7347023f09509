/** The sea-route assessment (src/seaRoute.ts) without its outbound calls:
    the `placeName` check on the request body and the banding of the
    returned `riskScore` into a level and a display colour. */
module SeaRoute {
  import opened Wrappers

  /** The JSON value found under `placeName` in the request body. */
  datatype BodyValue =
    | Absent
    | Null
    | Bool(b: bool)
    | Number(n: real)
    | Str(s: string)
    | Composite   // an array or object: always truthy, never a string

  /** The 400 response of the handler. */
  datatype RequestError = PlaceNameRequired

  /** JavaScript truthiness of a JSON value (NaN is not a JSON number). */
  predicate Truthy(v: BodyValue) {
    match v
    case Absent => false
    case Null => false
    case Bool(b) => b
    case Number(n) => n != 0.0
    case Str(s) => |s| > 0
    case Composite => true
  }

  /** A falsy or non-string place name is refused: only a non-empty string
      is accepted, and it is passed on unchanged. */
  function ValidatePlaceName(v: BodyValue): (r: Result<string, RequestError>)
    ensures r.Success? <==> v.Str? && |v.s| > 0
    ensures r.Success? ==> r.value == v.s
    ensures r.Failure? ==> r.error == PlaceNameRequired
  {
    if !Truthy(v) || !v.Str? then Failure(PlaceNameRequired)
    else Success(v.s)
  }

  /** The five levels the handler can report. */
  datatype Level = NegativeSentiment | SlightlyNegative | Neutral | SlightlyPositive | PositiveSentiment {
    /** Position from most to least risky. */
    function Rank(): int {
      match this
      case NegativeSentiment => -2
      case SlightlyNegative => -1
      case Neutral => 0
      case SlightlyPositive => 1
      case PositiveSentiment => 2
    }

    function Text(): string {
      match this
      case NegativeSentiment => "Negative Sentiment"
      case SlightlyNegative => "Slightly Negative"
      case Neutral => "Neutral"
      case SlightlyPositive => "Slightly Positive"
      case PositiveSentiment => "Positive Sentiment"
    }
  }

  datatype Colour = Red | Orange | Gray | LightGreen | Green {
    function Text(): string {
      match this
      case Red => "red"
      case Orange => "orange"
      case Gray => "gray"
      case LightGreen => "lightgreen"
      case Green => "green"
    }
  }

  /** Reference table: the colour that goes with each level. */
  function ColourOf(level: Level): Colour {
    match level
    case NegativeSentiment => Red
    case SlightlyNegative => Orange
    case Neutral => Gray
    case SlightlyPositive => LightGreen
    case PositiveSentiment => Green
  }

  /** The if/else chain over `riskScore`, starting from the default
      ("Neutral", "gray"). An absent or non-numeric score fails every
      comparison and keeps the default. */
  function Classify(riskScore: Option<real>): (r: (Level, Colour))
    ensures riskScore.None? ==> r == (Neutral, Gray)
    ensures riskScore.Some? ==> (r.0 == PositiveSentiment <==> riskScore.value > 5.0)
    ensures riskScore.Some? ==> (r.0 == SlightlyPositive <==> 0.0 < riskScore.value <= 5.0)
    ensures riskScore.Some? ==> (r.0 == Neutral <==> riskScore.value == 0.0)
    ensures riskScore.Some? ==> (r.0 == SlightlyNegative <==> -5.0 <= riskScore.value < 0.0)
    ensures riskScore.Some? ==> (r.0 == NegativeSentiment <==> riskScore.value < -5.0)
  {
    match riskScore
    case None => (Neutral, Gray)
    case Some(x) =>
      if x > 5.0 then (PositiveSentiment, Green)
      else if x > 0.0 then (SlightlyPositive, LightGreen)
      else if x < -5.0 then (NegativeSentiment, Red)
      else if x < 0.0 then (SlightlyNegative, Orange)
      else (Neutral, Gray)
  }

  /** The colour is determined by the level alone. */
  lemma ColourFollowsLevel(riskScore: Option<real>)
    ensures Classify(riskScore).1 == ColourOf(Classify(riskScore).0)
  {
  }

  /** A higher score never yields a riskier level; the scale has no upper
      or lower clamp, so any real score is banded. */
  lemma ClassifyMonotone(x: real, y: real)
    requires x <= y
    ensures Classify(Some(x)).0.Rank() <= Classify(Some(y)).0.Rank()
  {
  }

  /** The boundary values fall in the "Slightly" bands. */
  lemma BoundariesAreSlight()
    ensures Classify(Some(5.0)) == (SlightlyPositive, LightGreen)
    ensures Classify(Some(-5.0)) == (SlightlyNegative, Orange)
    ensures Classify(Some(0.0)) == (Neutral, Gray)
  {
  }

  /** What the handler answers with, once the place name is accepted and the
      weather and model calls have produced the returned `riskScore`. */
  datatype Assessment = Assessment(placeName: string, riskScore: Option<real>, level: Level, colour: Colour)

  /** POST /sea/assess, with the weather report and the model's answer
      reduced to the parsed `riskScore` they yield. */
  function Assess(placeName: BodyValue, riskScore: Option<real>): (r: Result<Assessment, RequestError>)
    ensures r.Failure? <==> ValidatePlaceName(placeName).Failure?
    ensures r.Success? ==>
      && r.value.placeName == placeName.s
      && r.value.riskScore == riskScore
      && r.value.colour == ColourOf(r.value.level)
      && (r.value.level, r.value.colour) == Classify(riskScore)
  {
    var name :- ValidatePlaceName(placeName);
    var (level, colour) := Classify(riskScore);
    Success(Assessment(name, riskScore, level, colour))
  }
}

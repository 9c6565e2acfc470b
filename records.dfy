/** The analysis record the dashboard keeps and the coercion applied to
    batch results before they enter the history. Probabilities are integer
    hundredths: the backend rounds every probability to two decimals. */
module Records {
  import opened Options

  /** One analysis result as stored in the history. */
  datatype Record = Record(
    review: string,
    sentiment: string,  // the `label` field
    positive: int,
    negative: int,
    neutral: int,
    timestamp: string)

  /** One element of a batch response, whose probability fields may be
      absent (`undefined`) or present. */
  datatype RawResult = RawResult(
    review: string,
    sentiment: string,  // the `label` field
    positive: Option<int>,
    negative: Option<int>,
    neutral: Option<int>,
    timestamp: string)

  /** The three classes, in the order every chart lists them. */
  datatype Class = Positive | Negative | Neutral

  function Prob(r: Record, c: Class): int
  {
    match c
    case Positive => r.positive
    case Negative => r.negative
    case Neutral => r.neutral
  }

  /** Defaults of the batch coercion: 0.33, 0.33 and 0.34. */
  const DefaultPositive: int := 33
  const DefaultNegative: int := 33
  const DefaultNeutral: int := 34

  /** JavaScript falsiness of a numeric field: absent, or exactly zero. */
  predicate Falsy(p: Option<int>) { p.None? || p.value == 0 }

  /** `p || d` on a numeric field: a truthy value is kept, a falsy one
      replaced, so the result is never falsy when the default is not. */
  function OrDefault(p: Option<int>, d: int): (v: int)
    ensures if Falsy(p) then v == d else p == Some(v)
    ensures d != 0 ==> v != 0
  {
    if Falsy(p) then d else p.value
  }

  /** The `map` callback of the batch handler: every field is copied, a falsy
      probability is replaced by its default, a truthy one passes unchanged. */
  function Coerce(raw: RawResult): (r: Record)
    ensures r.review == raw.review && r.sentiment == raw.sentiment && r.timestamp == raw.timestamp
    ensures r.positive != 0 && r.negative != 0 && r.neutral != 0
    ensures if Falsy(raw.positive) then r.positive == DefaultPositive else raw.positive == Some(r.positive)
    ensures if Falsy(raw.negative) then r.negative == DefaultNegative else raw.negative == Some(r.negative)
    ensures if Falsy(raw.neutral) then r.neutral == DefaultNeutral else raw.neutral == Some(r.neutral)
  {
    Record(raw.review, raw.sentiment,
      OrDefault(raw.positive, DefaultPositive),
      OrDefault(raw.negative, DefaultNegative),
      OrDefault(raw.neutral, DefaultNeutral),
      raw.timestamp)
  }

  /** A stored record as it travels on the wire, every field present. */
  function Lift(r: Record): RawResult
  {
    RawResult(r.review, r.sentiment, Some(r.positive), Some(r.negative), Some(r.neutral), r.timestamp)
  }

  /** A record with no zero probability survives coercion unchanged, so
      coercing an already coerced record changes nothing. */
  lemma CoerceLift(r: Record)
    requires r.positive != 0 && r.negative != 0 && r.neutral != 0
    ensures Coerce(Lift(r)) == r
  {
  }

  /** `data.results.map(...)`: one record per result, in the same order. */
  function CoerceAll(raws: seq<RawResult>): (rs: seq<Record>)
    ensures |rs| == |raws|
    ensures forall i :: 0 <= i < |raws| ==> rs[i] == Coerce(raws[i])
  {
    if |raws| == 0 then [] else [Coerce(raws[0])] + CoerceAll(raws[1..])
  }
}

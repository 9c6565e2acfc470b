/** The views the dashboard derives from the history on every render: the
    label tally, the trend window, the confidence histogram, the radar
    averages, the per-label icon and the downloadable report. */
module Aggregates {
  import opened Options
  import opened Text
  import opened Records
  import opened ResultLog

  // ---------------------------------------------------------------------
  // Label tally (getSentimentStats)
  // ---------------------------------------------------------------------

  /** The two spellings the tally accepts for each class. */
  predicate Matches(name: string, c: Class)
  {
    match c
    case Positive => name == "Positive" || name == "positive"
    case Negative => name == "Negative" || name == "negative"
    case Neutral => name == "Neutral" || name == "neutral"
  }

  predicate Recognized(name: string)
  {
    Matches(name, Positive) || Matches(name, Negative) || Matches(name, Neutral)
  }

  /** `history.filter(h => <label matches c>).length` */
  function Count(h: seq<Record>, c: Class): (n: nat)
    ensures n <= |h|
  {
    if |h| == 0 then 0
    else (if Matches(h[0].sentiment, c) then 1 else 0) + Count(h[1..], c)
  }

  /** One bar of the tally chart. */
  datatype Bar = Bar(name: string, count: nat)

  /** The tally: absent on an empty history, otherwise three bars in the
      fixed order Positive, Negative, Neutral. */
  function SentimentStats(h: seq<Record>): (r: Option<seq<Bar>>)
    ensures r.None? <==> |h| == 0
    ensures r.Some? ==> (|r.value| == 3
      && r.value[0] == Bar("Positive", Count(h, Positive))
      && r.value[1] == Bar("Negative", Count(h, Negative))
      && r.value[2] == Bar("Neutral", Count(h, Neutral)))
  {
    if |h| == 0 then None
    else Some([Bar("Positive", Count(h, Positive)),
               Bar("Negative", Count(h, Negative)),
               Bar("Neutral", Count(h, Neutral))])
  }

  /** The sum of the three counts of a tally. */
  function Total(bars: seq<Bar>): nat
    requires |bars| == 3
  {
    bars[0].count + bars[1].count + bars[2].count
  }

  lemma {:induction false} CountsBounded(h: seq<Record>)
    ensures Count(h, Positive) + Count(h, Negative) + Count(h, Neutral) <= |h|
    ensures Count(h, Positive) + Count(h, Negative) + Count(h, Neutral) == |h|
      <==> forall i :: 0 <= i < |h| ==> Recognized(h[i].sentiment)
    decreases |h|
  {
    if |h| > 0 {
      CountsBounded(h[1..]);
      assert forall i :: 1 <= i < |h| ==> h[i] == h[1..][i - 1];
      if forall i :: 0 <= i < |h| ==> Recognized(h[i].sentiment) {
        assert Recognized(h[0].sentiment);
      }
    }
  }

  /** The three counts never exceed the history length, and reach it exactly
      when every label is one of the six accepted spellings. */
  lemma StatsTotal(h: seq<Record>)
    requires |h| > 0
    ensures Total(SentimentStats(h).value) <= |h|
    ensures Total(SentimentStats(h).value) == |h| <==> forall i :: 0 <= i < |h| ==> Recognized(h[i].sentiment)
  {
    CountsBounded(h);
  }

  lemma {:induction false} CountUniform(h: seq<Record>, name: string, c: Class)
    requires forall i :: 0 <= i < |h| ==> h[i].sentiment == name
    ensures Count(h, c) == if Matches(name, c) then |h| else 0
    decreases |h|
  {
    if |h| > 0 {
      CountUniform(h[1..], name, c);
    }
  }

  /** A history whose every label is "Positive" tallies to all of it under
      Positive and nothing under the other two. */
  lemma StatsAllPositive(h: seq<Record>)
    requires |h| > 0
    requires forall i :: 0 <= i < |h| ==> h[i].sentiment == "Positive"
    ensures SentimentStats(h) == Some([Bar("Positive", |h|), Bar("Negative", 0), Bar("Neutral", 0)])
  {
    CountUniform(h, "Positive", Positive);
    CountUniform(h, "Positive", Negative);
    CountUniform(h, "Positive", Neutral);
  }

  // ---------------------------------------------------------------------
  // Label icon (getSentimentIcon)
  // ---------------------------------------------------------------------

  datatype Icon = CheckCircle | XCircle | MinusCircle

  /** `name` equals the lower-case `word` once lower-cased. */
  predicate SameIgnoringCase(name: string, word: string)
  {
    |name| == |word| && forall i :: 0 <= i < |name| ==> Lower(name[i]) == word[i]
  }

  /** The icon is chosen on the lower-cased label: "positive" and "negative"
      in any letter case get their own icons, anything else falls to the
      neutral icon. */
  function SentimentIcon(name: string): (icon: Icon)
    ensures icon == CheckCircle <==> SameIgnoringCase(name, "positive")
    ensures icon == XCircle <==> SameIgnoringCase(name, "negative")
  {
    var l := LowerString(name);
    if l == "positive" then CheckCircle
    else if l == "negative" then XCircle
    else MinusCircle
  }

  lemma LowerSpelling(s: string, t: string)
    requires |s| == |t| && forall i :: 0 <= i < |s| ==> Lower(s[i]) == t[i]
    ensures LowerString(s) == t
  {
  }

  lemma IconPositive(name: string)
    requires Matches(name, Positive)
    ensures SentimentIcon(name) == CheckCircle
  {
    LowerSpelling(name, "positive");
  }

  lemma IconNegative(name: string)
    requires Matches(name, Negative)
    ensures SentimentIcon(name) == XCircle
  {
    LowerSpelling(name, "negative");
  }

  lemma IconNeutral(name: string)
    requires Matches(name, Neutral)
    ensures SentimentIcon(name) == MinusCircle
  {
    LowerSpelling(name, "neutral");
  }

  /** Every label the tally counts gets the icon of its class. */
  lemma IconAgreesWithStats(name: string)
    ensures Matches(name, Positive) ==> SentimentIcon(name) == CheckCircle
    ensures Matches(name, Negative) ==> SentimentIcon(name) == XCircle
    ensures Matches(name, Neutral) ==> SentimentIcon(name) == MinusCircle
  {
    if Matches(name, Positive) {
      IconPositive(name);
    } else if Matches(name, Negative) {
      IconNegative(name);
    } else if Matches(name, Neutral) {
      IconNeutral(name);
    }
  }

  /** The converse fails: the icon ignores case, the tally does not, so an
      upper-case label shows the positive icon yet is counted nowhere. */
  lemma IconCoarserThanStats()
    ensures SentimentIcon("POSITIVE") == CheckCircle && !Recognized("POSITIVE")
  {
    LowerSpelling("POSITIVE", "positive");
  }

  // ---------------------------------------------------------------------
  // Trend window (getTrendData)
  // ---------------------------------------------------------------------

  const TrendWindow: nat := 10

  datatype TrendPoint = TrendPoint(index: nat, positive: int, negative: int, neutral: int)

  function Reverse<T>(s: seq<T>): (r: seq<T>)
    ensures |r| == |s|
  {
    if |s| == 0 then [] else Reverse(s[1..]) + [s[0]]
  }

  lemma {:induction false} ReverseAt<T>(s: seq<T>, k: nat)
    requires k < |s|
    ensures |Reverse(s)| == |s| && Reverse(s)[k] == s[|s| - 1 - k]
    decreases |s|
  {
    if |s| > 1 {
      ReverseAt(s[1..], if k < |s| - 1 then k else 0);
    }
  }

  /** `slice(0, n)` */
  function Take<T>(s: seq<T>, n: nat): seq<T>
  {
    if |s| <= n then s else s[..n]
  }

  /** The `map((item, idx) => ...)`: the percentages of each record,
      numbered from one. */
  function Numbered(items: seq<Record>): (points: seq<TrendPoint>)
    ensures |points| == |items|
    ensures forall i :: 0 <= i < |points| ==> points[i].index == i + 1
  {
    seq(|items|, i requires 0 <= i < |items| =>
      TrendPoint(i + 1, items[i].positive, items[i].negative, items[i].neutral))
  }

  /** `history.slice(0, 10).reverse()` numbered: at most ten points,
      numbered 1, 2, ... in order. */
  function TrendData(h: seq<Record>): (r: seq<TrendPoint>)
    ensures |r| == Min(TrendWindow, |h|)
    ensures forall i :: 0 <= i < |r| ==> r[i].index == i + 1
  {
    if |h| == 0 then [] else Numbered(Reverse(Take(h, TrendWindow)))
  }

  /** The trend holds the `m = min(10, |h|)` newest records, oldest first:
      entry `i` is numbered `i + 1` and is built from `h[m - 1 - i]`. */
  lemma TrendDataAt(h: seq<Record>)
    ensures |TrendData(h)| == Min(TrendWindow, |h|)
    ensures forall i :: 0 <= i < |TrendData(h)| ==>
      var item := h[|TrendData(h)| - 1 - i];
      TrendData(h)[i] == TrendPoint(i + 1, item.positive, item.negative, item.neutral)
  {
    if |h| > 0 {
      var w := Take(h, TrendWindow);
      ReverseAt(w, 0);
      forall i | 0 <= i < |w| ensures Reverse(w)[i] == h[|w| - 1 - i] {
        ReverseAt(w, i);
      }
    }
  }

  // ---------------------------------------------------------------------
  // Confidence histogram (getConfidenceDistribution)
  // ---------------------------------------------------------------------

  /** `Math.max(p, n, u) * 100`, in whole percent since the probabilities
      are hundredths. */
  function MaxConfidence(r: Record): (m: int)
    ensures m >= r.positive && m >= r.negative && m >= r.neutral
    ensures m == r.positive || m == r.negative || m == r.neutral
  {
    var m := if r.positive >= r.negative then r.positive else r.negative;
    if m >= r.neutral then m else r.neutral
  }

  /** Bucket `b` covers (20b, 20(b+1)], the first bucket unbounded below and
      the last unbounded above. */
  predicate InBucket(m: int, b: nat)
  {
    b < 5 && (b == 0 || 20 * b < m) && (b == 4 || m <= 20 * (b + 1))
  }

  /** The `if ... else if` chain of the counting loop. */
  function BucketOf(m: int): (b: nat)
    ensures InBucket(m, b)
  {
    if m <= 20 then 0
    else if m <= 40 then 1
    else if m <= 60 then 2
    else if m <= 80 then 3
    else 4
  }

  /** Each confidence lies in exactly one bucket, the one the chain picks; a
      value on a boundary belongs to the lower bucket. */
  lemma BucketOfUnique(m: int, b: nat)
    ensures InBucket(m, BucketOf(m))
    ensures InBucket(m, b) <==> b == BucketOf(m)
  {
  }

  const RangeNames: seq<string> := ["0-20%", "21-40%", "41-60%", "61-80%", "81-100%"]

  datatype Range = Range(range: string, count: nat)

  /** How many records of `h` land in bucket `b`. */
  function CountBucket(h: seq<Record>, b: nat): (n: nat)
    ensures n <= |h|
  {
    if |h| == 0 then 0
    else CountBucket(h[..|h| - 1], b) + (if BucketOf(MaxConfidence(h[|h| - 1])) == b then 1 else 0)
  }

  function BucketTotal(h: seq<Record>): nat
  {
    CountBucket(h, 0) + CountBucket(h, 1) + CountBucket(h, 2) + CountBucket(h, 3) + CountBucket(h, 4)
  }

  /** Every record is counted exactly once: the five counts sum to the
      history length. */
  lemma {:induction false} BucketTotalIsLength(h: seq<Record>)
    ensures BucketTotal(h) == |h|
    decreases |h|
  {
    if |h| > 0 {
      BucketTotalIsLength(h[..|h| - 1]);
      BucketOfUnique(MaxConfidence(h[|h| - 1]), 0);
    }
  }

  /** Builds the five ranges with zero counts, then walks the history once and
      increments the count of the bucket each record falls in. */
  method ConfidenceDistribution(h: seq<Record>) returns (ranges: seq<Range>)
    ensures ranges == [] <==> |h| == 0
    ensures |h| > 0 ==> |ranges| == 5
    ensures forall b :: 0 <= b < |ranges| ==> ranges[b] == Range(RangeNames[b], CountBucket(h, b))
  {
    if |h| == 0 {
      return [];
    }
    var counts := new nat[5](_ => 0);
    var i := 0;
    while i < |h|
      invariant 0 <= i <= |h|
      invariant forall b :: 0 <= b < 5 ==> counts[b] == CountBucket(h[..i], b)
    {
      assert h[..i + 1][..i] == h[..i];
      var maxConf := MaxConfidence(h[i]);
      if maxConf <= 20 {
        counts[0] := counts[0] + 1;
      } else if maxConf <= 40 {
        counts[1] := counts[1] + 1;
      } else if maxConf <= 60 {
        counts[2] := counts[2] + 1;
      } else if maxConf <= 80 {
        counts[3] := counts[3] + 1;
      } else {
        counts[4] := counts[4] + 1;
      }
      i := i + 1;
    }
    assert h[..i] == h;
    ranges := seq(5, b requires 0 <= b < 5 reads counts => Range(RangeNames[b], counts[b]));
  }

  // ---------------------------------------------------------------------
  // Radar averages (getRadarData)
  // ---------------------------------------------------------------------

  datatype RadarPoint = RadarPoint(sentiment: string, value: real)

  /** `history.reduce((sum, h) => sum + h.<c>, 0)` */
  function Sum(h: seq<Record>, c: Class): int
  {
    if |h| == 0 then 0 else Prob(h[0], c) + Sum(h[1..], c)
  }

  /** The mean of the class-`c` probabilities: times the count it gives
      back their sum. */
  function Average(h: seq<Record>, c: Class): (a: real)
    requires |h| > 0
    ensures a * |h| as real == Sum(h, c) as real
  {
    Sum(h, c) as real / |h| as real
  }

  /** Empty on an empty history, otherwise the three class averages (in
      percent) in the order Positive, Negative, Neutral. */
  function RadarData(h: seq<Record>): (r: seq<RadarPoint>)
    ensures |h| == 0 <==> r == []
    ensures |h| > 0 ==> (|r| == 3
      && r[0] == RadarPoint("Positive", Average(h, Positive))
      && r[1] == RadarPoint("Negative", Average(h, Negative))
      && r[2] == RadarPoint("Neutral", Average(h, Neutral)))
  {
    if |h| == 0 then []
    else [RadarPoint("Positive", Average(h, Positive)),
          RadarPoint("Negative", Average(h, Negative)),
          RadarPoint("Neutral", Average(h, Neutral))]
  }

  lemma {:induction false} SumBounds(h: seq<Record>, c: Class, lo: int, hi: int)
    requires forall i :: 0 <= i < |h| ==> lo <= Prob(h[i], c) <= hi
    ensures |h| * lo <= Sum(h, c) <= |h| * hi
    decreases |h|
  {
    if |h| > 0 {
      SumBounds(h[1..], c, lo, hi);
    }
  }

  lemma QuotientBounds(s: int, n: int, lo: int, hi: int)
    requires n > 0 && n * lo <= s <= n * hi
    ensures lo as real <= s as real / n as real <= hi as real
  {
    var q := s as real / n as real;
    assert q * n as real == s as real;
    assert (n * lo) as real == n as real * lo as real;
    assert (n * hi) as real == n as real * hi as real;
  }

  /** Each class average lies within the range of that class's
      probabilities; in particular it stays within 0..100 when they do. */
  lemma RadarBounds(h: seq<Record>, c: Class, lo: int, hi: int)
    requires |h| > 0
    requires forall i :: 0 <= i < |h| ==> lo <= Prob(h[i], c) <= hi
    ensures lo as real <= Average(h, c) <= hi as real
  {
    SumBounds(h, c, lo, hi);
    QuotientBounds(Sum(h, c), |h|, lo, hi);
  }

  /** A history whose class-`c` probability is always `p` averages to `p`. */
  lemma RadarConstant(h: seq<Record>, c: Class, p: int)
    requires |h| > 0
    requires forall i :: 0 <= i < |h| ==> Prob(h[i], c) == p
    ensures Average(h, c) == p as real
  {
    RadarBounds(h, c, p, p);
  }

  // ---------------------------------------------------------------------
  // Report (downloadReport)
  // ---------------------------------------------------------------------

  datatype Report = Report(totalReviews: nat, sentiment: Option<seq<Bar>>, timestamp: string, reviews: seq<Record>)

  /** The document the report download serializes; the export time is a
      parameter. */
  function BuildReport(h: seq<Record>, now: string): (rep: Report)
    ensures rep.totalReviews == |rep.reviews| && rep.reviews == h && rep.timestamp == now
    ensures rep.sentiment == SentimentStats(rep.reviews)
    ensures rep.sentiment.None? <==> rep.totalReviews == 0
    ensures rep.sentiment.Some? ==> |rep.sentiment.value| == 3 && Total(rep.sentiment.value) <= rep.totalReviews
  {
    var rep := Report(|h|, SentimentStats(h), now, h);
    if |h| == 0 then rep else StatsTotal(h); rep
  }
}

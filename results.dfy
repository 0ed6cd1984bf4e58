/**
 * The results page: it normalises each raw score of the record to 0..100,
 * averages the completed ones and names a rank for the rounded average.
 */
module Results {
  import opened JsMath
  import opened ScoreStore

  // ---------------------------------------------------------------------------
  // Normalisation, written as the page computes it (on exact numbers)
  // ---------------------------------------------------------------------------

  /** Reaction time: 200 ms is 100 points, 600 ms is 0, lower is better. */
  function ReactionPoints(raw: int): (p: int)
    ensures 0 <= p <= 100
  {
    Max(0, Min(100, Round(100.0 - ((raw as real - 200.0) / 400.0) * 100.0)))
  }

  /** Target clicks: 50 targets are 100 points. */
  function TargetPoints(raw: int): (p: int)
    ensures p <= 100
  {
    Min(100, Round((raw as real / 50.0) * 100.0))
  }

  /** Memory points: 25 points are 100 points. */
  function MemoryPoints(raw: int): (p: int)
    ensures p <= 100
  {
    Min(100, Round((raw as real / 25.0) * 100.0))
  }

  /** Tracking accuracy is already a percentage; rounding keeps an integer accuracy as it is. */
  function TrackingPoints(raw: int): (p: int)
    ensures p == raw
  {
    FloorUnique(raw as real + 0.5, raw);
    Round(raw as real)
  }

  /** Multitask points: 1000 points are 100 points. */
  function MultitaskPoints(raw: int): (p: int)
    ensures p <= 100
  {
    Min(100, Round((raw as real / 1000.0) * 100.0))
  }

  function FieldPoints(f: Field, raw: int): int
  {
    match f
    case Reaction => ReactionPoints(raw)
    case Target => TargetPoints(raw)
    case Memory => MemoryPoints(raw)
    case Tracking => TrackingPoints(raw)
    case Multitask => MultitaskPoints(raw)
  }

  /**
   * `savedScores.f ? <formula> : 0`: a field that is absent or 0 is falsy in
   * JavaScript and normalises to 0 without its formula being applied.
   */
  function Normalize(rec: Record, f: Field): (n: int)
    ensures f !in rec || rec[f] == 0 ==> n == 0
    ensures f == Reaction ==> 0 <= n <= 100
    ensures f != Tracking ==> n <= 100
    ensures f == Tracking && f in rec ==> n == rec[f]
  {
    if f in rec && rec[f] != 0 then FieldPoints(f, rec[f]) else 0
  }

  /** The order of `Object.values(normalizedScores)`. */
  const FieldOrder: seq<Field> := [Reaction, Target, Memory, Tracking, Multitask]

  function NormalizedScores(rec: Record): (s: seq<int>)
    ensures |s| == |FieldOrder|
    ensures 0 <= s[0] <= 100
    ensures forall i :: 0 <= i < |s| && FieldOrder[i] != Tracking ==> s[i] <= 100
    ensures forall i :: 0 <= i < |s| && (FieldOrder[i] !in rec || rec[FieldOrder[i]] == 0) ==> s[i] == 0
  {
    seq(5, i requires 0 <= i < 5 => Normalize(rec, FieldOrder[i]))
  }

  // ---------------------------------------------------------------------------
  // What the formulas come to on integers
  // ---------------------------------------------------------------------------

  /** Halving numerator and denominator of a division by 8 gives a division by 4. */
  lemma HalveDivision(m: int)
    ensures (2 * m) / 8 == m / 4
  {
    var q, r := m / 4, m % 4;
    assert m == 4 * q + r && 0 <= r < 4;
    assert 2 * m == 8 * q + 2 * r && 0 <= 2 * r < 8;
  }

  /** The reaction formula is `(602 - raw) div 4`, clamped to 0..100. */
  lemma ReactionClosedForm(raw: int)
    ensures ReactionPoints(raw) == Max(0, Min(100, (602 - raw) / 4))
  {
    var x := 100.0 - ((raw as real - 200.0) / 400.0) * 100.0;
    assert x == (600 - raw) as real / 4 as real;
    assert Round(x) == RoundDiv(600 - raw, 4);
    HalveDivision(602 - raw);
    assert RoundDiv(600 - raw, 4) == (602 - raw) / 4;
  }

  /** 200 ms earns full marks, 600 ms or slower earns nothing. */
  lemma ReactionEndpoints(raw: int)
    ensures ReactionPoints(200) == 100
    ensures raw >= 600 ==> ReactionPoints(raw) == 0
    ensures raw <= 200 ==> ReactionPoints(raw) == 100
  {
    ReactionClosedForm(200);
    ReactionClosedForm(raw);
  }

  /** A slower reaction never earns more points. */
  lemma ReactionMonotone(fast: int, slow: int)
    requires fast <= slow
    ensures ReactionPoints(slow) <= ReactionPoints(fast)
  {
    ReactionClosedForm(fast);
    ReactionClosedForm(slow);
    assert (602 - slow) / 4 <= (602 - fast) / 4;
  }

  /** Two points per target, capped at 100 from 50 targets on. */
  lemma TargetClosedForm(raw: int)
    ensures TargetPoints(raw) == Min(100, 2 * raw)
    ensures raw >= 50 ==> TargetPoints(raw) == 100
  {
    assert (raw as real / 50.0) * 100.0 == (2 * raw) as real / 1 as real;
    assert RoundDiv(2 * raw, 1) == 2 * raw;
  }

  /** Four points per memory point, capped at 100 from 25 on. */
  lemma MemoryClosedForm(raw: int)
    ensures MemoryPoints(raw) == Min(100, 4 * raw)
    ensures raw >= 25 ==> MemoryPoints(raw) == 100
  {
    assert (raw as real / 25.0) * 100.0 == (4 * raw) as real / 1 as real;
    assert RoundDiv(4 * raw, 1) == 4 * raw;
  }

  /** A tenth of the multitask points, rounded half up, capped at 100 from 1000 on. */
  lemma MultitaskClosedForm(raw: int)
    ensures MultitaskPoints(raw) == Min(100, (raw + 5) / 10)
    ensures raw >= 1000 ==> MultitaskPoints(raw) == 100
  {
    assert (raw as real / 1000.0) * 100.0 == raw as real / 10 as real;
    assert RoundDiv(raw, 10) == (2 * raw + 10) / 20;
    assert (2 * raw + 10) / 20 == (raw + 5) / 10 by {
      var q, r := (raw + 5) / 10, (raw + 5) % 10;
      assert 2 * raw + 10 == 20 * q + 2 * r && 0 <= 2 * r < 20;
    }
  }

  /** More targets, memory points or multitask points never earn fewer points. */
  lemma HigherIsBetter(lo: int, hi: int)
    requires lo <= hi
    ensures TargetPoints(lo) <= TargetPoints(hi)
    ensures MemoryPoints(lo) <= MemoryPoints(hi)
    ensures MultitaskPoints(lo) <= MultitaskPoints(hi)
    ensures TrackingPoints(lo) <= TrackingPoints(hi)
  {
    TargetClosedForm(lo);
    TargetClosedForm(hi);
    MemoryClosedForm(lo);
    MemoryClosedForm(hi);
    MultitaskClosedForm(lo);
    MultitaskClosedForm(hi);
    assert (lo + 5) / 10 <= (hi + 5) / 10;
  }

  /** A missing or zero field normalises to 0, whatever its formula. */
  lemma MissingIsZero(rec: Record, f: Field)
    requires f !in rec || rec[f] == 0
    ensures Normalize(rec, f) == 0
  {
  }

  // ---------------------------------------------------------------------------
  // The total: the rounded mean of the completed scores
  // ---------------------------------------------------------------------------

  /** `filter((score) => score > 0)`: the positive scores, each as often as it occurs. */
  function Completed(s: seq<int>): (c: seq<int>)
    ensures forall x :: multiset(c)[x] == if x > 0 then multiset(s)[x] else 0
    ensures forall i :: 0 <= i < |c| ==> c[i] > 0
    ensures |c| <= |s|
  {
    if s == [] then []
    else
      assert s == [s[0]] + s[1..];
      if s[0] > 0 then [s[0]] + Completed(s[1..]) else Completed(s[1..])
  }

  /** `completedScores.length > 0 ? Math.round(sum / length) : 0`: the rounded mean of the completed scores. */
  function Total(scores: seq<int>): (t: int)
    ensures |Completed(scores)| > 0 ==>
      t == Round(Sum(Completed(scores)) as real / |Completed(scores)| as real)
    ensures |Completed(scores)| == 0 ==> t == 0
  {
    var c := Completed(scores);
    if |c| > 0 then RoundDiv(Sum(c), |c|) else 0
  }

  /** The total lies between any bounds of the positive scores. */
  lemma TotalBetween(scores: seq<int>, lo: int, hi: int)
    requires exists i :: 0 <= i < |scores| && scores[i] > 0
    requires forall i :: 0 <= i < |scores| && scores[i] > 0 ==> lo <= scores[i] <= hi
    ensures lo <= Total(scores) <= hi
  {
    var c := Completed(scores);
    var i :| 0 <= i < |scores| && scores[i] > 0;
    assert multiset(scores)[scores[i]] > 0;
    assert multiset(c)[scores[i]] > 0;
    assert |c| > 0;
    forall j | 0 <= j < |c|
      ensures lo <= c[j] <= hi
    {
      assert c[j] in multiset(c);
      assert c[j] in multiset(scores);
      var k :| 0 <= k < |scores| && scores[k] == c[j];
    }
    SumBetween(c, lo, hi);
    RoundDivBetween(Sum(c), |c|, lo, hi);
  }

  /** The total is 0 exactly when no score is positive. */
  lemma TotalZero(scores: seq<int>)
    ensures Total(scores) == 0 <==> forall i :: 0 <= i < |scores| ==> scores[i] <= 0
  {
    if exists i :: 0 <= i < |scores| && scores[i] > 0 {
      var hi := MaxOf(scores);
      TotalBetween(scores, 1, hi);
    } else {
      var c := Completed(scores);
      assert forall x :: x in scores ==> x <= 0;
      assert forall x :: multiset(c)[x] == 0;
      assert multiset(c) == multiset{};
    }
  }

  /** An upper bound of a sequence. */
  function MaxOf(s: seq<int>): (m: int)
    ensures forall i :: 0 <= i < |s| ==> s[i] <= m
  {
    if s == [] then 0 else Max(s[0], MaxOf(s[1..]))
  }

  // ---------------------------------------------------------------------------
  // Ranks
  // ---------------------------------------------------------------------------

  datatype Rank =
    | ButtonMasher | Novice | CasualPlayer | AverageGamer
    | SkilledPlayer | ProGamer | LegendaryGamer | UltraInstinct
  {
    /** The text the page shows. */
    function Label(): string
    {
      match this
      case ButtonMasher => "Button Masher"
      case Novice => "Novice"
      case CasualPlayer => "Casual Player"
      case AverageGamer => "Average Gamer"
      case SkilledPlayer => "Skilled Player"
      case ProGamer => "Pro Gamer"
      case LegendaryGamer => "Legendary Gamer"
      case UltraInstinct => "Ultra Instinct"
    }

    /** The position of the rank in the ladder, 0 for the lowest. */
    function Tier(): nat
    {
      match this
      case ButtonMasher => 0
      case Novice => 1
      case CasualPlayer => 2
      case AverageGamer => 3
      case SkilledPlayer => 4
      case ProGamer => 5
      case LegendaryGamer => 6
      case UltraInstinct => 7
    }

    /** The inclusive lower bound of every rank above the lowest: 30, 40, ..., 90. */
    function Threshold(): int
      requires this != ButtonMasher
    {
      20 + 10 * Tier()
    }
  }

  /** The page's if-chain from the highest threshold down: one tier per 10 points from 30, capped at the top tier. */
  function RankOf(total: int): (r: Rank)
    ensures r.Tier() == Max(0, Min(7, (total - 20) / 10))
  {
    if total >= 90 then UltraInstinct
    else if total >= 80 then LegendaryGamer
    else if total >= 70 then ProGamer
    else if total >= 60 then SkilledPlayer
    else if total >= 50 then AverageGamer
    else if total >= 40 then CasualPlayer
    else if total >= 30 then Novice
    else ButtonMasher
  }

  /** The rank is the highest one whose threshold the total reaches. */
  lemma RankIsHighestReached(total: int)
    ensures RankOf(total) != ButtonMasher ==> RankOf(total).Threshold() <= total
    ensures forall r: Rank :: r.Tier() > RankOf(total).Tier() ==> total < r.Threshold()
  {
  }

  /** Each rank shows its own text, so the label names the rank. */
  lemma LabelNamesRank(a: Rank, b: Rank)
    ensures a.Label() == b.Label() ==> a == b
  {
    if a != b {
      assert a.Label()[0] != b.Label()[0];
    }
  }

  /** A higher total never gets a lower rank. */
  lemma RankMonotone(lower: int, higher: int)
    requires lower <= higher
    ensures RankOf(lower).Tier() <= RankOf(higher).Tier()
  {
  }

  // ---------------------------------------------------------------------------
  // The page's view of a record
  // ---------------------------------------------------------------------------

  datatype Summary = Summary(scores: seq<int>, total: int, rank: Rank)

  /** What the page derives from the loaded record. */
  function Evaluate(rec: Record): (s: Summary)
    ensures |s.scores| == 5 && 0 <= s.scores[0] <= 100
    ensures forall i :: 0 <= i < 5 && FieldOrder[i] != Tracking ==> s.scores[i] <= 100
    ensures s.total == 0 <==> forall i :: 0 <= i < 5 ==> s.scores[i] <= 0
  {
    var scores := NormalizedScores(rec);
    var total := Total(scores);
    TotalZero(scores);
    Summary(scores, total, RankOf(total))
  }

  /** An absent record (after a reset) shows all zeros, a total of 0 and the lowest rank. */
  lemma EvaluateEmpty()
    ensures Evaluate(map[]) == Summary([0, 0, 0, 0, 0], 0, ButtonMasher)
  {
    var s := NormalizedScores(map[]);
    assert s == [0, 0, 0, 0, 0];
    TotalZero(s);
  }
}

/**
 The label expression of `main` in `scripts/moi/calc_moi.py`: five ordered
 buckets with lower-inclusive thresholds 20, 40, 60 and 75.
 */
module MoiLabel {

  /** The buckets, lowest to highest. */
  datatype Label = Calm | SomewhatCalm | Normal | SomewhatOverheated | Overheated

  /** The bucket's position in the order, 0 for the calmest. */
  function Rank(l: Label): nat
  {
    match l
    case Calm => 0
    case SomewhatCalm => 1
    case Normal => 2
    case SomewhatOverheated => 3
    case Overheated => 4
  }

  /** The text the reading carries for each bucket. */
  function Text(l: Label): string
  {
    match l
    case Calm => "静穏"
    case SomewhatCalm => "やや冷静"
    case Normal => "平常"
    case SomewhatOverheated => "やや過熱"
    case Overheated => "過熱"
  }

  /** The chained conditional of the source, tested from the top bucket down. */
  function Classify(value: real): Label
  {
    if value >= 75.0 then Overheated
    else if value >= 60.0 then SomewhatOverheated
    else if value >= 40.0 then Normal
    else if value >= 20.0 then SomewhatCalm
    else Calm
  }

  /** The label string the reading carries for a value: the text of the one
      bucket whose interval holds it. */
  function LabelOf(value: real): (s: string)
    ensures forall l :: s == Text(l) <==> InBucket(value, l)
  {
    Text(Classify(value))
  }

  /** The interval each bucket covers, stated independently of `Classify`:
      every threshold belongs to the higher bucket. */
  ghost predicate InBucket(value: real, l: Label)
  {
    match l
    case Calm => value < 20.0
    case SomewhatCalm => 20.0 <= value < 40.0
    case Normal => 40.0 <= value < 60.0
    case SomewhatOverheated => 60.0 <= value < 75.0
    case Overheated => 75.0 <= value
  }

  // ---------------------------------------------------------------------
  // Properties

  /** The classifier picks exactly the bucket whose interval holds the value:
      the intervals leave no gap and do not overlap. */
  lemma ClassifyIsBucket(value: real, l: Label)
    ensures Classify(value) == l <==> InBucket(value, l)
  {
  }

  /** Every value lies in exactly one bucket. */
  lemma BucketsPartition(value: real)
    ensures InBucket(value, Classify(value))
    ensures forall l :: InBucket(value, l) ==> l == Classify(value)
  {
    forall l | InBucket(value, l)
      ensures l == Classify(value)
    {
      ClassifyIsBucket(value, l);
    }
  }

  /** A larger value never gets a calmer label. */
  lemma ClassifyMonotone(v: real, w: real)
    requires v <= w
    ensures Rank(Classify(v)) <= Rank(Classify(w))
  {
  }

  /** Distinct buckets carry distinct texts, so the label string identifies the bucket. */
  lemma TextInjective(a: Label, b: Label)
    requires Text(a) == Text(b)
    ensures a == b
  {
  }
}

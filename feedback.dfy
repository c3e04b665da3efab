/**
 * The pure parts of the feedback hook: the rating distribution and the sum and
 * count behind the average rating.
 */
module Feedback {

  /** A feedback row, without its timestamps and joined user name. */
  datatype Feedback = Feedback(id: int, placeId: int, userId: string, rating: int, comment: string)

  /**
   * A bucket's value. Buckets 1 to 5 start at 0; `distribution[r]++` on a
   * rating that has no bucket increments `undefined`, which gives `NaN`.
   */
  datatype Tally = Count(n: nat) | NotANumber

  const Buckets: set<int> := {1, 2, 3, 4, 5}

  function InitialDistribution(): (d: map<int, Tally>)
    ensures d.Keys == Buckets && forall k :: k in d ==> d[k] == Count(0)
  {
    map[1 := Count(0), 2 := Count(0), 3 := Count(0), 4 := Count(0), 5 := Count(0)]
  }

  /** `distribution[rating]++`. */
  function Incremented(d: map<int, Tally>, rating: int): map<int, Tally> {
    d[rating := if rating in d && d[rating].Count? then Count(d[rating].n + 1) else NotANumber]
  }

  function Ratings(feedback: seq<Feedback>): (rs: seq<int>)
    ensures |rs| == |feedback| && forall i :: 0 <= i < |rs| ==> rs[i] == feedback[i].rating
  {
    seq(|feedback|, i requires 0 <= i < |feedback| => feedback[i].rating)
  }

  /** The distribution after counting `ratings` one by one, from the first. */
  function Distribution(ratings: seq<int>): map<int, Tally>
    decreases |ratings|
  {
    if ratings == [] then InitialDistribution()
    else Incremented(Distribution(ratings[..|ratings| - 1]), ratings[|ratings| - 1])
  }

  /** `getRatingDistribution`: start from five zero buckets and increment each item's own bucket. */
  method GetRatingDistribution(feedback: seq<Feedback>) returns (distribution: map<int, Tally>)
    ensures distribution == Distribution(Ratings(feedback))
  {
    distribution := InitialDistribution();
    ghost var rs := Ratings(feedback);
    for i := 0 to |feedback|
      invariant distribution == Distribution(rs[..i])
    {
      var rating := feedback[i].rating;
      if rating in distribution && distribution[rating].Count? {
        distribution := distribution[rating := Count(distribution[rating].n + 1)];
      } else {
        distribution := distribution[rating := NotANumber];
      }
      assert rs[..i + 1][..i] == rs[..i];
    }
    assert rs[..|feedback|] == rs;
  }

  /**
   * The distribution as a pure count: buckets 1 to 5 hold how often their
   * rating occurs, and every other rating that occurs has a `NaN` bucket.
   */
  ghost function Tabulate(ms: multiset<int>): map<int, Tally> {
    map k | k in Buckets + (set r | r in ms) :: if k in Buckets then Count(ms[k]) else NotANumber
  }

  lemma {:induction false} DistributionTabulates(rs: seq<int>)
    ensures Distribution(rs) == Tabulate(multiset(rs))
    decreases |rs|
  {
    if rs != [] {
      var init, r := rs[..|rs| - 1], rs[|rs| - 1];
      DistributionTabulates(init);
      assert rs == init + [r];
      assert multiset(rs) == multiset(init) + multiset{r};
      TabulateOneMore(multiset(init), r);
    }
  }

  /** Counting one more rating in the pure count is one `distribution[r]++`. */
  lemma TabulateOneMore(ms: multiset<int>, r: int)
    ensures Tabulate(ms + multiset{r}) == Incremented(Tabulate(ms), r)
  {
    var d, t := Incremented(Tabulate(ms), r), Tabulate(ms + multiset{r});
    assert (set x | x in ms + multiset{r}) == (set x | x in ms) + {r};
    assert d.Keys == t.Keys;
    forall k | k in d
      ensures d[k] == t[k]
    {
      if k == r && k !in Buckets {
        assert d[k] == NotANumber;
      }
    }
  }

  /** Buckets 1 to 5 are always there and hold the number of items with that rating. */
  lemma DistributionCounts(rs: seq<int>, k: int)
    requires k in Buckets
    ensures k in Distribution(rs) && Distribution(rs)[k] == Count(multiset(rs)[k])
  {
    DistributionTabulates(rs);
  }

  /** A rating outside 1 to 5 gets a `NaN` bucket; no bucket appears for a rating that does not occur. */
  lemma DistributionKeys(rs: seq<int>)
    ensures Distribution(rs).Keys == Buckets + (set i | 0 <= i < |rs| :: rs[i])
    ensures forall i :: 0 <= i < |rs| && rs[i] !in Buckets ==> Distribution(rs)[rs[i]] == NotANumber
  {
    DistributionTabulates(rs);
    assert (set r | r in multiset(rs)) == (set i | 0 <= i < |rs| :: rs[i]) by {
      forall r | r in multiset(rs) ensures exists i :: 0 <= i < |rs| && rs[i] == r {
        assert r in rs;
      }
    }
  }

  /** The distribution does not depend on the order of the feedback list. */
  lemma DistributionIgnoresOrder(a: seq<int>, b: seq<int>)
    requires multiset(a) == multiset(b)
    ensures Distribution(a) == Distribution(b)
  {
    DistributionTabulates(a);
    DistributionTabulates(b);
  }

  /** Counting one more item adds 1 to the bucket of its own rating and changes no other bucket. */
  lemma CountOneMore(rs: seq<int>, r: int)
    requires r in Buckets
    ensures Distribution(rs + [r]).Keys == Distribution(rs).Keys
    ensures Distribution(rs)[r].Count?
    ensures Distribution(rs + [r])[r] == Count(Distribution(rs)[r].n + 1)
    ensures forall k :: k in Distribution(rs) && k != r ==> Distribution(rs + [r])[k] == Distribution(rs)[k]
  {
    assert (rs + [r])[..|rs|] == rs;
    DistributionCounts(rs, r);
  }

  predicate InScale(rs: seq<int>) {
    forall i :: 0 <= i < |rs| ==> 1 <= rs[i] <= 5
  }

  function BucketCount(d: map<int, Tally>, k: int): nat {
    if k in d && d[k].Count? then d[k].n else 0
  }

  function BucketTotal(d: map<int, Tally>): nat {
    BucketCount(d, 1) + BucketCount(d, 2) + BucketCount(d, 3) + BucketCount(d, 4) + BucketCount(d, 5)
  }

  /** Bucket values weighted by their rating. */
  function WeightedTotal(d: map<int, Tally>): nat {
    BucketCount(d, 1) + 2 * BucketCount(d, 2) + 3 * BucketCount(d, 3) + 4 * BucketCount(d, 4) + 5 * BucketCount(d, 5)
  }

  /** With every rating in 1 to 5 there are exactly five buckets and they add up to the number of items. */
  lemma {:induction false} DistributionTotal(rs: seq<int>)
    requires InScale(rs)
    ensures Distribution(rs).Keys == Buckets
    ensures forall k :: k in Buckets ==> Distribution(rs)[k].Count?
    ensures BucketTotal(Distribution(rs)) == |rs|
    decreases |rs|
  {
    if rs != [] {
      var init, r := rs[..|rs| - 1], rs[|rs| - 1];
      DistributionTotal(init);
    }
  }

  /** `feedback.reduce((acc, item) => acc + item.rating, 0)`. */
  function SumRatings(rs: seq<int>): int
    decreases |rs|
  {
    if rs == [] then 0 else SumRatings(rs[..|rs| - 1]) + rs[|rs| - 1]
  }

  /** The sum of the ratings is the sum of each bucket's count times its rating. */
  lemma {:induction false} SumMatchesDistribution(rs: seq<int>)
    requires InScale(rs)
    ensures SumRatings(rs) == WeightedTotal(Distribution(rs))
    decreases |rs|
  {
    if rs != [] {
      var init, r := rs[..|rs| - 1], rs[|rs| - 1];
      assert rs == init + [r];
      SumMatchesDistribution(init);
      DistributionTotal(init);
      CountOneMore(init, r);
      assert WeightedTotal(Distribution(rs)) == WeightedTotal(Distribution(init)) + r;
    }
  }

  /** The average before rounding, as `numerator / denominator`. */
  datatype Ratio = Ratio(numerator: int, denominator: nat)

  /** `getAverageRating` without its rounding to one decimal: 0 for no feedback, else sum over count. */
  function AverageRating(feedback: seq<Feedback>): (r: Ratio)
    ensures r.denominator > 0
    ensures feedback == [] ==> r.numerator == 0
    ensures feedback != [] ==> r.denominator == |feedback|
    ensures feedback != [] ==> r.numerator == SumRatings(Ratings(feedback))
  {
    if |feedback| == 0 then Ratio(0, 1) else Ratio(SumRatings(Ratings(feedback)), |feedback|)
  }

  /** With every rating in 1 to 5, a non-empty list averages between 1 and 5. */
  lemma AverageWithinScale(feedback: seq<Feedback>)
    requires feedback != [] && InScale(Ratings(feedback))
    ensures var r := AverageRating(feedback); r.denominator <= r.numerator <= 5 * r.denominator
  {
    var rs := Ratings(feedback);
    SumMatchesDistribution(rs);
    DistributionTotal(rs);
  }
}

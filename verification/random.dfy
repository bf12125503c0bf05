/**
 * Weight normalisation and the weighted draw (services/randomservice.py).
 * Weights are exact reals; the generator's draw is an index supplied by the
 * caller.
 */
module RandomService {
  import opened Wrappers

  /** Candidate keys with one weight each, as the recommender hands them over. */
  datatype WeightedKeys<T> = WeightedKeys(keys: seq<T>, chances: seq<real>)

  datatype RandomError =
    | ZeroDivision      // a weight divided by a zero total
    | EmptyKeys         // a draw from no keys at all
    | SizeMismatch      // not one weight per key
    | NotADistribution  // a negative weight, or weights that do not add up to one

  /** The total of the weights, added up from the front. */
  function Sum(c: seq<real>): real
  {
    if c == [] then 0.0 else c[0] + Sum(c[1..])
  }

  /** Each weight divided by `total`. */
  function Divided(c: seq<real>, total: real): (r: seq<real>)
    requires total != 0.0
    ensures |r| == |c|
  {
    seq(|c|, i requires 0 <= i < |c| => c[i] / total)
  }

  /** Each weight multiplied by `k`. */
  function Scaled(c: seq<real>, k: real): (r: seq<real>)
    ensures |r| == |c|
  {
    seq(|c|, i requires 0 <= i < |c| => k * c[i])
  }

  /**
   * Divides every weight by their sum. An empty list comes back empty, since
   * no division takes place; a non-empty list with a zero sum divides by zero.
   */
  function Normalize(chances: seq<real>): (r: Result<seq<real>, RandomError>)
    ensures r.Failure? <==> chances != [] && Sum(chances) == 0.0
    ensures r.Failure? ==> r.error == ZeroDivision
    ensures r.Success? ==> |r.value| == |chances|
    ensures r.Success? ==> forall i :: 0 <= i < |chances| ==> r.value[i] * Sum(chances) == chances[i]
  {
    var total := Sum(chances);
    if chances == [] then Success([])
    else if total == 0.0 then Failure(ZeroDivision)
    else Success(Divided(chances, total))
  }

  /** Non-negative weights that add up to exactly one. */
  predicate IsDistribution(p: seq<real>)
  {
    (forall i :: 0 <= i < |p| ==> 0.0 <= p[i]) && Sum(p) == 1.0
  }

  /**
   * One weighted draw. `drawn` is the index the generator picks; the draw
   * fails, as the generator does, on no keys, on a weight list of another
   * length, or on weights that are not a distribution.
   */
  function GetKey<T>(w: WeightedKeys<T>, drawn: nat): (r: Result<T, RandomError>)
    requires w.keys == [] || drawn < |w.keys|
    ensures r.Success? <==> w.keys != [] && |w.chances| == |w.keys| && IsDistribution(w.chances)
    ensures r.Success? ==> r.value in w.keys && r.value == w.keys[drawn]
  {
    if w.keys == [] then Failure(EmptyKeys)
    else if |w.chances| != |w.keys| then Failure(SizeMismatch)
    else if !IsDistribution(w.chances) then Failure(NotADistribution)
    else Success(w.keys[drawn])
  }

  /** Dividing every weight by `total` divides the sum by `total`. */
  lemma {:induction false} SumDivided(c: seq<real>, total: real)
    requires total != 0.0
    ensures Sum(Divided(c, total)) == Sum(c) / total
  {
    if c != [] {
      SumDivided(c[1..], total);
      assert Divided(c, total)[1..] == Divided(c[1..], total);
      assert c[0] / total + Sum(c[1..]) / total == (c[0] + Sum(c[1..])) / total;
    }
  }

  /** Multiplying every weight by `k` multiplies the sum by `k`. */
  lemma {:induction false} SumScaled(c: seq<real>, k: real)
    ensures Sum(Scaled(c, k)) == k * Sum(c)
  {
    if c != [] {
      var scaled, rest := Scaled(c, k), c[1..];
      SumScaled(rest, k);
      forall i | 0 <= i < |rest|
        ensures scaled[1..][i] == Scaled(rest, k)[i]
      {
        assert scaled[1..][i] == scaled[i + 1] == k * c[i + 1];
        assert rest[i] == c[i + 1];
      }
      assert scaled[1..] == Scaled(rest, k);
      Distribute(k, c[0], Sum(rest));
    }
  }

  lemma Distribute(k: real, a: real, b: real)
    ensures k * a + k * b == k * (a + b)
  {
  }

  lemma CancelFactor(k: real, x: real, total: real)
    requires k != 0.0 && total != 0.0
    ensures (k * x) / (k * total) == x / total
  {
    assert (k * x) / (k * total) == ((k * x) / (k * total) * k) / k;
  }

  /** Non-negative weights: each weight is at most the sum, which is non-negative. */
  lemma {:induction false} WeightAtMostSum(c: seq<real>, i: nat)
    requires forall j :: 0 <= j < |c| ==> 0.0 <= c[j]
    requires i < |c|
    ensures 0.0 <= c[i] <= Sum(c)
  {
    NonNegativeSum(c[1..]);
    if i > 0 {
      WeightAtMostSum(c[1..], i - 1);
    }
  }

  lemma {:induction false} NonNegativeSum(c: seq<real>)
    requires forall j :: 0 <= j < |c| ==> 0.0 <= c[j]
    ensures 0.0 <= Sum(c)
  {
    if c != [] {
      NonNegativeSum(c[1..]);
    }
  }

  /** Strictly positive weights have a strictly positive sum once there is one. */
  lemma {:induction false} PositiveSum(c: seq<real>)
    requires c != []
    requires forall j :: 0 <= j < |c| ==> 0.0 < c[j]
    ensures 0.0 < Sum(c)
  {
    NonNegativeSum(c[1..]);
  }

  /** A successful normalisation of a non-empty list adds up to one. */
  lemma NormalizedSumsToOne(chances: seq<real>)
    requires chances != [] && Sum(chances) != 0.0
    ensures Normalize(chances).Success? && Sum(Normalize(chances).value) == 1.0
  {
    var total := Sum(chances);
    SumDivided(chances, total);
    assert Normalize(chances).value == Divided(chances, total);
    assert total / total == 1.0;
  }

  /** Non-negative weights with a positive sum normalise to a distribution. */
  lemma NormalizedIsDistribution(chances: seq<real>)
    requires chances != []
    requires forall j :: 0 <= j < |chances| ==> 0.0 <= chances[j]
    requires Sum(chances) > 0.0
    ensures Normalize(chances).Success?
    ensures forall i :: 0 <= i < |chances| ==> 0.0 <= Normalize(chances).value[i] <= 1.0
    ensures IsDistribution(Normalize(chances).value)
  {
    var total := Sum(chances);
    NormalizedSumsToOne(chances);
    forall i | 0 <= i < |chances|
      ensures 0.0 <= Normalize(chances).value[i] <= 1.0
    {
      WeightAtMostSum(chances, i);
      DivideAtMostOne(chances[i], total);
      assert Normalize(chances).value[i] == chances[i] / total;
    }
  }

  lemma DivideAtMostOne(x: real, total: real)
    requires 0.0 <= x <= total && 0.0 < total
    ensures 0.0 <= x / total <= 1.0
  {
    assert x / total * total == x;
  }

  /** Scaling every weight by a positive factor does not change the normalised weights. */
  lemma NormalizeScaleInvariant(chances: seq<real>, k: real)
    requires k > 0.0
    ensures Normalize(Scaled(chances, k)) == Normalize(chances)
  {
    SumScaled(chances, k);
    var total := Sum(chances);
    if chances != [] && total != 0.0 {
      var scaled := Scaled(chances, k);
      assert Sum(scaled) == k * total;
      forall i | 0 <= i < |chances|
        ensures Divided(scaled, k * total)[i] == Divided(chances, total)[i]
      {
        CancelFactor(k, chances[i], total);
      }
      assert Divided(scaled, k * total) == Divided(chances, total);
    }
  }
}

/**
 * Wind-speed samples as numpy holds them: arrays of double-precision floats
 * that may contain NaN and infinities, and the boolean-mask filtering that
 * util/weibull.py applies to them before any estimation.
 */
module Samples {

  /** A double as numpy sees it. Rounding is not modelled: finite values are exact reals. */
  datatype Float = Num(value: real) | NaN | PosInf | NegInf

  const Zero: Float := Num(0.0)

  /** numpy's `x > 0`: false for NaN and for -inf, true for +inf. */
  predicate IsPositive(x: Float)
    ensures IsPositive(x) ==> !x.NaN? && !x.NegInf?
    ensures x.Num? ==> (IsPositive(x) <==> x.value > 0.0)
  {
    match x
    case Num(v) => v > 0.0
    case PosInf => true
    case _ => false
  }

  /** numpy's `isnan(x)`. */
  predicate IsNaN(x: Float) {
    x.NaN?
  }

  /** `X[X > 0]`: the entries that are > 0, in their original order. */
  function Positives(xs: seq<Float>): (r: seq<Float>)
    ensures |r| <= |xs|
    ensures forall i :: 0 <= i < |r| ==> IsPositive(r[i])
  {
    if xs == [] then []
    else if IsPositive(xs[0]) then [xs[0]] + Positives(xs[1..])
    else Positives(xs[1..])
  }

  /** `X[~np.isnan(X)]`: the entries that are not NaN, in their original order. */
  function NotNaN(xs: seq<Float>): (r: seq<Float>)
    ensures |r| <= |xs|
    ensures forall x :: x in r <==> x in xs && !IsNaN(x)
  {
    if xs == [] then []
    else if !IsNaN(xs[0]) then [xs[0]] + NotNaN(xs[1..])
    else NotNaN(xs[1..])
  }

  /** The preprocessing both estimators apply: `X = X[X > 0]` then `X = X[~np.isnan(X)]`. */
  function Preprocess(xs: seq<Float>): (r: seq<Float>)
    ensures forall i :: 0 <= i < |r| ==> IsPositive(r[i])
  {
    NotNaNIdentity(Positives(xs));
    NotNaN(Positives(xs))
  }

  /** The number of entries > 0 strictly before position `i`: the slot of `xs[i]` in `X[X > 0]`. */
  function Rank(xs: seq<Float>, i: nat): nat
    requires i <= |xs|
  {
    |Positives(xs[..i])|
  }

  /** A value is kept by `X[X > 0]` exactly when it occurs in the input and is > 0. */
  lemma {:induction false} PositivesMembership(xs: seq<Float>)
    ensures forall x :: x in Positives(xs) <==> x in xs && IsPositive(x)
  {
    if xs != [] {
      PositivesMembership(xs[1..]);
      assert xs == [xs[0]] + xs[1..];
    }
  }

  /** Masking a sequence without any entry > 0 leaves nothing. */
  lemma {:induction false} PositivesNone(xs: seq<Float>)
    requires forall i :: 0 <= i < |xs| ==> !IsPositive(xs[i])
    ensures Positives(xs) == []
  {
    if xs != [] {
      PositivesNone(xs[1..]);
    }
  }

  /** Masking distributes over concatenation: this is what "in their original order" means. */
  lemma {:induction false} PositivesAppend(a: seq<Float>, b: seq<Float>)
    ensures Positives(a + b) == Positives(a) + Positives(b)
  {
    if a != [] {
      assert (a + b)[0] == a[0];
      assert (a + b)[1..] == a[1..] + b;
      PositivesAppend(a[1..], b);
    } else {
      assert a + b == b;
    }
  }

  /** Masking keeps every positive value exactly as often as it occurs and drops every other value. */
  lemma {:induction false} PositivesCount(xs: seq<Float>, x: Float)
    ensures multiset(Positives(xs))[x] == if IsPositive(x) then multiset(xs)[x] else 0
  {
    if xs != [] {
      assert xs == [xs[0]] + xs[1..];
      PositivesCount(xs[1..], x);
    }
  }

  /** The NaN filter keeps every value other than NaN exactly as often as it occurs and drops NaN. */
  lemma {:induction false} NotNaNCount(xs: seq<Float>, x: Float)
    ensures multiset(NotNaN(xs))[x] == if IsNaN(x) then 0 else multiset(xs)[x]
  {
    if xs != [] {
      assert xs == [xs[0]] + xs[1..];
      NotNaNCount(xs[1..], x);
    }
  }

  /** The NaN filter distributes over concatenation: the kept values stay in their original order. */
  lemma {:induction false} NotNaNAppend(a: seq<Float>, b: seq<Float>)
    ensures NotNaN(a + b) == NotNaN(a) + NotNaN(b)
  {
    if a != [] {
      assert (a + b)[0] == a[0];
      assert (a + b)[1..] == a[1..] + b;
      NotNaNAppend(a[1..], b);
    } else {
      assert a + b == b;
    }
  }

  /** The NaN filter leaves a sequence without NaN unchanged. */
  lemma {:induction false} NotNaNIdentity(xs: seq<Float>)
    requires forall i :: 0 <= i < |xs| ==> !IsNaN(xs[i])
    ensures NotNaN(xs) == xs
  {
    if xs != [] {
      NotNaNIdentity(xs[1..]);
    }
  }

  /**
   * The second filter of the preprocessing is a no-op: NaN is already removed by
   * `X > 0`, so the preprocessing keeps exactly the entries > 0 (including +inf), in order.
   */
  lemma PreprocessIsPositives(xs: seq<Float>)
    ensures Preprocess(xs) == Positives(xs)
    ensures forall x :: x in Preprocess(xs) <==> x in xs && IsPositive(x)
    ensures PosInf in xs ==> PosInf in Preprocess(xs)
  {
    NotNaNIdentity(Positives(xs));
    PositivesMembership(xs);
  }

  /** Applying the preprocessing twice is the same as applying it once. */
  lemma {:induction false} PreprocessIdempotent(xs: seq<Float>)
    ensures Preprocess(Preprocess(xs)) == Preprocess(xs)
  {
    PreprocessIsPositives(xs);
    PositivesIdentity(Positives(xs));
    PreprocessIsPositives(Positives(xs));
  }

  /** Masking a sequence whose entries are all positive leaves it unchanged. */
  lemma {:induction false} PositivesIdentity(xs: seq<Float>)
    requires forall i :: 0 <= i < |xs| ==> IsPositive(xs[i])
    ensures Positives(xs) == xs
  {
    if xs != [] {
      PositivesIdentity(xs[1..]);
    }
  }

  /**
   * Boolean-mask indexing pairs positions with slots: the entry at a positive position `i`
   * is the `Rank(xs, i)`-th entry of `X[X > 0]`.
   */
  lemma RankSlot(xs: seq<Float>, i: nat)
    requires i < |xs| && IsPositive(xs[i])
    ensures Rank(xs, i) < |Positives(xs)|
    ensures Positives(xs)[Rank(xs, i)] == xs[i]
  {
    assert xs == xs[..i] + xs[i..];
    PositivesAppend(xs[..i], xs[i..]);
    assert xs[i..][0] == xs[i];
  }

  /** The rank grows by one exactly at positive positions. */
  lemma RankStep(xs: seq<Float>, i: nat)
    requires i < |xs|
    ensures Rank(xs, i + 1) == Rank(xs, i) + (if IsPositive(xs[i]) then 1 else 0)
  {
    assert xs[..i + 1] == xs[..i] + [xs[i]];
    PositivesAppend(xs[..i], [xs[i]]);
  }
}

/**
 What dense causal attention is (src/backend/cpu.rs:22-56), told by its results alone: a row is a mixture of
 the value rows; the weights are positive at the positions up to the query's own and zero after it, they add
 up to one, and two of them are to each other as the exponentials of their scaled scores.
 */
module DenseLaws {
  import opened Attention

  // ------------------------------------------------------------------ the dot product

  function Plus(a: Vec, b: Vec): (c: Vec)
    requires |a| == |b|
    ensures |c| == |a|
  {
    seq(|a|, d requires 0 <= d < |a| => a[d] + b[d])
  }

  function Times(x: real, a: Vec): (c: Vec)
    ensures |c| == |a|
  {
    seq(|a|, d requires 0 <= d < |a| => x * a[d])
  }

  /** The vector that is one at `d` and zero elsewhere. */
  function Unit(n: nat, d: nat): (u: Vec)
    ensures |u| == n
  {
    seq(n, i => if i == d then 1.0 else 0.0)
  }

  lemma {:induction false} DotAdds(q: Vec, a: Vec, b: Vec)
    requires |q| == |a| == |b|
    ensures Dot(q, Plus(a, b)) == Dot(q, a) + Dot(q, b)
  {
    if q != [] {
      var n := |q| - 1;
      assert Plus(a, b)[..n] == Plus(a[..n], b[..n]);
      DotAdds(q[..n], a[..n], b[..n]);
      Distributes(q[n], a[n], b[n]);
    }
  }

  lemma Distributes(x: real, a: real, b: real)
    ensures x * (a + b) == x * a + x * b
  {
  }

  lemma {:induction false} DotScales(q: Vec, x: real, a: Vec)
    requires |q| == |a|
    ensures Dot(q, Times(x, a)) == x * Dot(q, a)
  {
    if q != [] {
      var n := |q| - 1;
      assert Times(x, a)[..n] == Times(x, a[..n]) by {
        assert forall d :: 0 <= d < n ==> Times(x, a)[..n][d] == Times(x, a[..n])[d];
      }
      DotScales(q[..n], x, a[..n]);
      Distribute(x, Dot(q[..n], a[..n]), q[n], a[n]);
    }
  }

  /** On unit vectors the dot product reads off the components, which with the two laws above fixes it. */
  lemma {:induction false} DotReads(q: Vec, d: nat)
    requires d < |q|
    ensures Dot(q, Unit(|q|, d)) == q[d]
  {
    var n := |q| - 1;
    if d < n {
      assert Unit(|q|, d)[..n] == Unit(n, d);
      DotReads(q[..n], d);
    } else {
      DotNothing(q[..n], Unit(|q|, d)[..n]);
    }
  }

  lemma {:induction false} DotNothing(q: Vec, a: Vec)
    requires |q| == |a| && forall d :: 0 <= d < |a| ==> a[d] == 0.0
    ensures Dot(q, a) == 0.0
  {
    if q != [] {
      DotNothing(q[..|q| - 1], a[..|a| - 1]);
    }
  }

  // ------------------------------------------------------------------ the weights

  /** Value rows that are one at position `j` and zero elsewhere. */
  function OneHot(n: nat, j: nat, dim: nat): (v: seq<Vec>)
    ensures |v| == n && Rows(v, dim)
  {
    seq(n, m => seq(dim, _ => if m == j then 1.0 else 0.0))
  }

  /** How much of position `j` a query takes in. */
  function Weight(exp: real -> real, q: Vec, k: seq<Vec>, scale: real, limit: nat, j: nat): real
    requires ExpLaws(exp) && Rows(k, |q|) && q != [] && j < |k|
  {
    DenseRow(exp, q, k, OneHot(|k|, j, |q|), scale, limit)[0]
  }

  lemma {:induction false} BlendOneHot(w: seq<real>, j: nat, dim: nat, d: nat)
    requires d < dim
    ensures Blend(w, OneHot(|w|, j, dim), dim, d) == if j < |w| then w[j] else 0.0
  {
    if w != [] {
      assert OneHot(|w|, j, dim)[..|w| - 1] == OneHot(|w| - 1, j, dim);
      BlendOneHot(w[..|w| - 1], j, dim, d);
    }
  }

  lemma WeightIs(exp: real -> real, q: Vec, k: seq<Vec>, scale: real, limit: nat, j: nat)
    requires ExpLaws(exp) && Rows(k, |q|) && q != [] && j < |k|
    ensures MaxOver(Scores(q, k, scale, 0, limit)).Fin?
    ensures Weight(exp, q, k, scale, limit, j) == Softmax(exp, Scores(q, k, scale, 0, limit))[j]
  {
    FirstIsVisible(q, k, scale, limit);
    BlendOneHot(Softmax(exp, Scores(q, k, scale, 0, limit)), j, |q|, 0);
  }

  /** The scaled score of a key. */
  function Logit(q: Vec, key: Vec, scale: real): real
    requires |q| == |key|
  {
    scale * Dot(q, key)
  }

  lemma ScoreAt(q: Vec, k: seq<Vec>, scale: real, limit: nat, j: nat)
    requires Rows(k, |q|) && j < |k|
    ensures Scores(q, k, scale, 0, limit)[j] == if j <= limit then Fin(Logit(q, k[j], scale)) else NegInf
  {
  }

  /** The weight of `j` is the exponential of its score shifted by `m`, over `sum`, or zero where the mask is. */
  ghost predicate Parted(exp: real -> real, q: Vec, k: seq<Vec>, scale: real, limit: nat, j: nat, m: real, sum: real)
    requires ExpLaws(exp) && Rows(k, |q|) && q != [] && j < |k|
  {
    sum > 0.0 &&
    Weight(exp, q, k, scale, limit, j) == (if j <= limit then exp(Logit(q, k[j], scale) - m) else 0.0) / sum
  }

  lemma WeightParts(exp: real -> real, q: Vec, k: seq<Vec>, scale: real, limit: nat) returns (m: real, sum: real)
    requires ExpLaws(exp) && Rows(k, |q|) && q != [] && k != []
    ensures forall j :: 0 <= j < |k| ==> Parted(exp, q, k, scale, limit, j, m, sum)
  {
    hide Weight, Softmax, Weights, Scores, Logit, Sum;
    var s := Scores(q, k, scale, 0, limit);
    FirstIsVisible(q, k, scale, limit);
    m, sum := MaxOver(s).x, Sum(Weights(exp, s, MaxOver(s)));
    forall j | 0 <= j < |k|
      ensures Parted(exp, q, k, scale, limit, j, m, sum)
    {
      WeightIs(exp, q, k, scale, limit, j);
      SoftmaxAt(exp, s, j);
      ScoreAt(q, k, scale, limit, j);
    }
  }

  lemma SoftmaxAt(exp: real -> real, s: seq<Score>, j: nat)
    requires ExpLaws(exp) && MaxOver(s).Fin? && j < |s|
    ensures var w := Weights(exp, s, MaxOver(s));
      Sum(w) > 0.0 && Softmax(exp, s)[j] == (if s[j].Fin? then exp(s[j].x - MaxOver(s).x) else 0.0) / Sum(w)
  {
    WeightsSumPositive(exp, s, MaxOver(s));
  }

  /** A query takes in exactly the positions up to its own. */
  lemma VisibleExactly(exp: real -> real, q: Vec, k: seq<Vec>, scale: real, limit: nat, j: nat)
    requires ExpLaws(exp) && Rows(k, |q|) && q != [] && j < |k|
    ensures if j <= limit then Weight(exp, q, k, scale, limit, j) > 0.0 else Weight(exp, q, k, scale, limit, j) == 0.0
  {
    hide ExpLaws, Weight;
    var m, sum := WeightParts(exp, q, k, scale, limit);
    assert Parted(exp, q, k, scale, limit, j, m, sum);
    Positive(exp, Logit(q, k[j], scale) - m);
  }

  lemma Positive(exp: real -> real, x: real)
    requires ExpLaws(exp)
    ensures exp(x) > 0.0
  {
  }

  lemma LogitRatio(exp: real -> real, q: Vec, k: seq<Vec>, scale: real, limit: nat, i: nat, j: nat, apart: real)
    requires ExpLaws(exp) && Rows(k, |q|) && q != [] && i < |k| && j < |k| && i <= limit && j <= limit
    requires apart == Logit(q, k[i], scale) - Logit(q, k[j], scale)
    ensures Weight(exp, q, k, scale, limit, i) == exp(apart) * Weight(exp, q, k, scale, limit, j)
  {
    hide Weight, Logit;
    var m, sum := WeightParts(exp, q, k, scale, limit);
    assert Parted(exp, q, k, scale, limit, i, m, sum) && Parted(exp, q, k, scale, limit, j, m, sum);
    Shifted(exp, Logit(q, k[i], scale), Logit(q, k[j], scale), m, sum);
  }

  /** Of two visible positions the weights are to each other as the exponentials of their scaled scores. */
  lemma WeightRatio(exp: real -> real, q: Vec, k: seq<Vec>, scale: real, limit: nat, i: nat, j: nat, apart: real)
    requires ExpLaws(exp) && Rows(k, |q|) && q != [] && i < |k| && j < |k| && i <= limit && j <= limit
    requires apart == scale * (Dot(q, k[i]) - Dot(q, k[j]))
    ensures Weight(exp, q, k, scale, limit, i) == exp(apart) * Weight(exp, q, k, scale, limit, j)
  {
    hide Weight, Logit, Dot, ExpLaws;
    LogitsApart(q, k[i], k[j], scale);
    LogitRatio(exp, q, k, scale, limit, i, j, apart);
  }

  lemma LogitsApart(q: Vec, a: Vec, b: Vec, scale: real)
    requires |q| == |a| == |b|
    ensures Logit(q, a, scale) - Logit(q, b, scale) == scale * (Dot(q, a) - Dot(q, b))
  {
    hide Dot;
    TimesDifference(scale, Dot(q, a), Dot(q, b));
  }

  lemma TimesDifference(x: real, a: real, b: real)
    ensures x * (a - b) == x * a - x * b
  {
  }

  lemma Shifted(exp: real -> real, a: real, b: real, m: real, sum: real)
    requires ExpLaws(exp) && sum > 0.0
    ensures exp(a - m) / sum == exp(a - b) * (exp(b - m) / sum)
  {
    assert Additive(exp, a - b, b - m);
    assert (a - b) + (b - m) == a - m;
    Quotient(exp(a - b), exp(b - m), sum);
  }

  lemma Quotient(x: real, y: real, sum: real)
    requires sum > 0.0
    ensures x * y / sum == x * (y / sum)
  {
  }

  /** The weights of all positions. */
  function AllWeights(exp: real -> real, q: Vec, k: seq<Vec>, scale: real, limit: nat): (w: seq<real>)
    requires ExpLaws(exp) && Rows(k, |q|) && q != []
    ensures |w| == |k|
  {
    seq(|k|, j requires 0 <= j < |k| => Weight(exp, q, k, scale, limit, j))
  }

  lemma WeightsAreSoftmax(exp: real -> real, q: Vec, k: seq<Vec>, scale: real, limit: nat)
    requires ExpLaws(exp) && Rows(k, |q|) && q != [] && k != []
    ensures MaxOver(Scores(q, k, scale, 0, limit)).Fin?
    ensures AllWeights(exp, q, k, scale, limit) == Softmax(exp, Scores(q, k, scale, 0, limit))
  {
    hide Weight;
    FirstIsVisible(q, k, scale, limit);
    forall j | 0 <= j < |k|
      ensures AllWeights(exp, q, k, scale, limit)[j] == Softmax(exp, Scores(q, k, scale, 0, limit))[j]
    {
      WeightIs(exp, q, k, scale, limit, j);
    }
  }

  lemma {:induction false} BlendIsSum(w: seq<real>, v: seq<Vec>, dim: nat, d: nat)
    requires |w| == |v| && Rows(v, dim) && d < dim
    ensures Blend(w, v, dim, d) == Sum(seq(|w|, j requires 0 <= j < |w| => w[j] * v[j][d]))
  {
    var terms := seq(|w|, j requires 0 <= j < |w| => w[j] * v[j][d]);
    if w != [] {
      var n := |w| - 1;
      BlendIsSum(w[..n], v[..n], dim, d);
      var before := seq(n, j requires 0 <= j < n => w[..n][j] * v[..n][j][d]);
      assert terms[..n] == before by {
        assert forall j :: 0 <= j < n ==> w[..n][j] == w[j] && v[..n][j] == v[j];
        assert forall j :: 0 <= j < n ==> terms[..n][j] == before[j];
      }
    }
  }

  /** Every row is the mixture of the value rows with these weights, and the weights add up to one. */
  lemma DenseIsMixture(exp: real -> real, q: Vec, k: seq<Vec>, v: seq<Vec>, scale: real, limit: nat, d: nat)
    requires ExpLaws(exp) && Rows(k, |q|) && Rows(v, |q|) && |k| == |v| > 0 && d < |q|
    ensures var w := AllWeights(exp, q, k, scale, limit);
      && Sum(w) == 1.0
      && DenseRow(exp, q, k, v, scale, limit)[d] == Sum(seq(|k|, j requires 0 <= j < |k| => w[j] * v[j][d]))
  {
    var w, s := AllWeights(exp, q, k, scale, limit), Scores(q, k, scale, 0, limit);
    WeightsAreSoftmax(exp, q, k, scale, limit);
    SoftmaxSumsToOne(exp, s);
    BlendIsSum(w, v, |q|, d);
    assert seq(|w|, j requires 0 <= j < |w| => w[j] * v[j][d]) == seq(|k|, j requires 0 <= j < |k| => w[j] * v[j][d]);
  }
}

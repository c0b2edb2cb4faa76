/**
 The streaming attention kernel against dense causal attention (src/backend/cpu.rs), over the reals.

 A masked score is `NegInf`. Subtracting is defined for a finite subtrahend only: minus infinity minus
 itself is an invalid operation (section 7.2 of IEEE 754-2019), so the kernel has to show that it
 never comes up.
 */
module Attention {
  import opened Bundle

  type Vec = seq<real>
  datatype Score = NegInf | Fin(x: real)

  // ------------------------------------------------------------------ exponentials and scores

  predicate Additive(exp: real -> real, x: real, y: real) {
    exp(x + y) == exp(x) * exp(y)
  }

  /** All that is used of the exponential function. */
  ghost predicate ExpLaws(exp: real -> real) {
    (forall x :: exp(x) > 0.0) && forall x, y :: Additive(exp, x, y)
  }

  function Sub(a: Score, b: Score): Score
    requires b.Fin?
  {
    if a.NegInf? then NegInf else Fin(a.x - b.x)
  }

  function ExpOf(exp: real -> real, s: Score): real {
    if s.NegInf? then 0.0 else exp(s.x)
  }

  function Max(a: Score, b: Score): Score {
    if a.NegInf? || (b.Fin? && a.x < b.x) then b else a
  }

  function MaxOver(s: seq<Score>): Score {
    if s == [] then NegInf else Max(MaxOver(s[..|s| - 1]), s[|s| - 1])
  }

  lemma {:induction false} MaxOverAppend(a: seq<Score>, b: seq<Score>)
    ensures MaxOver(a + b) == Max(MaxOver(a), MaxOver(b))
    decreases |b|
  {
    if b == [] {
      assert a + b == a;
    } else {
      var init, last := b[..|b| - 1], b[|b| - 1];
      assert (a + b)[..|a + b| - 1] == a + init && (a + b)[|a + b| - 1] == last;
      MaxOverAppend(a, init);
    }
  }

  /** One visible score makes the maximum finite. */
  lemma {:induction false} MaxOverFinite(s: seq<Score>, j: nat)
    requires j < |s| && s[j].Fin?
    ensures MaxOver(s).Fin?
  {
    if j < |s| - 1 {
      MaxOverFinite(s[..|s| - 1], j);
    }
  }

  // ------------------------------------------------------------------ weighted sums

  ghost predicate Rows(v: seq<Vec>, dim: nat) {
    forall j :: 0 <= j < |v| ==> |v[j]| == dim
  }

  function Sum(w: seq<real>): real {
    if w == [] then 0.0 else Sum(w[..|w| - 1]) + w[|w| - 1]
  }

  /** Component `d` of the combination of the rows `v` with weights `w`. */
  function Blend(w: seq<real>, v: seq<Vec>, dim: nat, d: nat): real
    requires |w| == |v| && Rows(v, dim) && d < dim
  {
    if w == [] then 0.0
    else Blend(w[..|w| - 1], v[..|w| - 1], dim, d) + w[|w| - 1] * v[|w| - 1][d]
  }

  lemma {:induction false} SumAppend(a: seq<real>, b: seq<real>)
    ensures Sum(a + b) == Sum(a) + Sum(b)
    decreases |b|
  {
    if b == [] {
      assert a + b == a;
    } else {
      assert (a + b)[..|a + b| - 1] == a + b[..|b| - 1];
      SumAppend(a, b[..|b| - 1]);
    }
  }

  lemma {:induction false} BlendAppend(a: seq<real>, b: seq<real>, v: seq<Vec>, u: seq<Vec>, dim: nat, d: nat)
    requires |a| == |v| && |b| == |u| && Rows(v, dim) && Rows(u, dim) && d < dim
    ensures Blend(a + b, v + u, dim, d) == Blend(a, v, dim, d) + Blend(b, u, dim, d)
    decreases |b|
  {
    if b == [] {
      assert a + b == a && v + u == v;
    } else {
      assert (a + b)[..|a + b| - 1] == a + b[..|b| - 1] && (v + u)[..|a + b| - 1] == v + u[..|b| - 1];
      BlendAppend(a, b[..|b| - 1], v, u[..|b| - 1], dim, d);
    }
  }

  /** `w` is `c` times `u`. */
  ghost predicate Scaled(w: seq<real>, c: real, u: seq<real>) {
    |w| == |u| && forall j :: 0 <= j < |w| ==> w[j] == c * u[j]
  }

  lemma {:induction false} SumScaled(w: seq<real>, c: real, u: seq<real>)
    requires Scaled(w, c, u)
    ensures Sum(w) == c * Sum(u)
  {
    if w != [] {
      SumScaled(w[..|w| - 1], c, u[..|u| - 1]);
    }
  }

  lemma {:induction false} BlendScaled(w: seq<real>, c: real, u: seq<real>, v: seq<Vec>, dim: nat, d: nat)
    requires Scaled(w, c, u) && |w| == |v| && Rows(v, dim) && d < dim
    ensures Blend(w, v, dim, d) == c * Blend(u, v, dim, d)
    decreases |w|
  {
    if w != [] {
      var n := |w| - 1;
      BlendScaled(w[..n], c, u[..n], v[..n], dim, d);
      Distribute(c, Blend(u[..n], v[..n], dim, d), u[n], v[n][d]);
    }
  }

  lemma Distribute(c: real, b: real, u: real, x: real)
    ensures c * b + (c * u) * x == c * (b + u * x)
  {
  }

  /** The exponentials of the scores less `m`. */
  function Weights(exp: real -> real, s: seq<Score>, m: Score): (w: seq<real>)
    requires m.Fin?
    ensures |w| == |s|
  {
    seq(|s|, j requires 0 <= j < |s| => ExpOf(exp, Sub(s[j], m)))
  }

  lemma WeightsAppend(exp: real -> real, a: seq<Score>, b: seq<Score>, m: Score)
    requires m.Fin?
    ensures Weights(exp, a + b, m) == Weights(exp, a, m) + Weights(exp, b, m)
  {
  }

  lemma ShiftOne(exp: real -> real, x: real, m: real, m': real)
    requires Additive(exp, m - m', x - m)
    ensures exp(x - m') == exp(m - m') * exp(x - m)
  {
    assert m - m' + (x - m) == x - m';
  }

  /** Moving to another maximum multiplies every weight by the correction. */
  lemma WeightsShift(exp: real -> real, s: seq<Score>, m: Score, m': Score)
    requires ExpLaws(exp) && m.Fin? && m'.Fin?
    ensures Scaled(Weights(exp, s, m'), ExpOf(exp, Sub(m, m')), Weights(exp, s, m))
  {
    var c := ExpOf(exp, Sub(m, m'));
    forall j | 0 <= j < |s|
      ensures Weights(exp, s, m')[j] == c * Weights(exp, s, m)[j]
    {
      if s[j].Fin? {
        ShiftOne(exp, s[j].x, m.x, m'.x);
      }
    }
  }

  lemma {:induction false} WeightsSumPositive(exp: real -> real, s: seq<Score>, m: Score)
    requires ExpLaws(exp) && m.Fin?
    ensures Sum(Weights(exp, s, m)) >= 0.0
    ensures MaxOver(s).Fin? ==> Sum(Weights(exp, s, m)) > 0.0
    decreases |s|
  {
    if s != [] {
      WeightsSumPositive(exp, s[..|s| - 1], m);
      assert Weights(exp, s, m)[..|s| - 1] == Weights(exp, s[..|s| - 1], m);
    }
  }

  // ------------------------------------------------------------------ dense attention

  function Softmax(exp: real -> real, s: seq<Score>): (p: seq<real>)
    requires ExpLaws(exp) && MaxOver(s).Fin?
    ensures |p| == |s|
  {
    var w := Weights(exp, s, MaxOver(s));
    WeightsSumPositive(exp, s, MaxOver(s));
    seq(|w|, j requires 0 <= j < |w| => w[j] / Sum(w))
  }

  function Dot(a: Vec, b: Vec): real
    requires |a| == |b|
  {
    if a == [] then 0.0 else Dot(a[..|a| - 1], b[..|b| - 1]) + a[|a| - 1] * b[|b| - 1]
  }

  /** The scaled scores of one query against keys from position `start` on; past `limit` is the future. */
  function Scores(q: Vec, k: seq<Vec>, scale: real, start: nat, limit: nat): (s: seq<Score>)
    requires Rows(k, |q|)
    ensures |s| == |k|
  {
    seq(|k|, j requires 0 <= j < |k| => if start + j > limit then NegInf else Fin(Dot(q, k[j]) * scale))
  }

  lemma ScoresAppend(q: Vec, a: seq<Vec>, b: seq<Vec>, scale: real, limit: nat)
    requires Rows(a, |q|) && Rows(b, |q|)
    ensures Scores(q, a + b, scale, 0, limit) == Scores(q, a, scale, 0, limit) + Scores(q, b, scale, |a|, limit)
  {
    var whole, first, rest := Scores(q, a + b, scale, 0, limit), Scores(q, a, scale, 0, limit),
      Scores(q, b, scale, |a|, limit);
    forall j | 0 <= j < |whole|
      ensures whole[j] == (first + rest)[j]
    {
      assert j >= |a| ==> (a + b)[j] == b[j - |a|];
    }
  }

  lemma FirstIsVisible(q: Vec, k: seq<Vec>, scale: real, limit: nat)
    requires Rows(k, |q|) && k != []
    ensures MaxOver(Scores(q, k, scale, 0, limit)).Fin?
  {
    MaxOverFinite(Scores(q, k, scale, 0, limit), 0);
  }

  /** `causal_attention` for one query row. */
  function DenseRow(exp: real -> real, q: Vec, k: seq<Vec>, v: seq<Vec>, scale: real, limit: nat): (o: Vec)
    requires ExpLaws(exp) && Rows(k, |q|) && Rows(v, |q|) && |k| == |v| > 0
    ensures |o| == |q|
  {
    FirstIsVisible(q, k, scale, limit);
    var p := Softmax(exp, Scores(q, k, scale, 0, limit));
    seq(|q|, d requires 0 <= d < |q| => Blend(p, v, |q|, d))
  }

  /** The softmax is the weights against any finite shift, divided by their sum. */
  lemma SoftmaxIsScaled(exp: real -> real, s: seq<Score>, m: Score)
    requires ExpLaws(exp) && MaxOver(s).Fin? && m.Fin?
    ensures var u := Weights(exp, s, m); Sum(u) > 0.0 && Scaled(Softmax(exp, s), 1.0 / Sum(u), u)
  {
    hide Weights, Sum, MaxOver;
    var w, u := Weights(exp, s, MaxOver(s)), Weights(exp, s, m);
    var c := ExpOf(exp, Sub(m, MaxOver(s)));
    WeightsSumPositive(exp, s, MaxOver(s));
    WeightsSumPositive(exp, s, m);
    WeightsShift(exp, s, m, MaxOver(s));
    SumScaled(w, c, u);
    forall j | 0 <= j < |s|
      ensures Softmax(exp, s)[j] == (1.0 / Sum(u)) * u[j]
    {
      CancelFactor(c, u[j], Sum(u));
    }
  }

  lemma SoftmaxBlend(exp: real -> real, s: seq<Score>, m: Score, v: seq<Vec>, dim: nat, d: nat)
    requires ExpLaws(exp) && MaxOver(s).Fin? && m.Fin? && |s| == |v| && Rows(v, dim) && d < dim
    ensures Sum(Weights(exp, s, m)) > 0.0
    ensures Blend(Softmax(exp, s), v, dim, d) == Blend(Weights(exp, s, m), v, dim, d) / Sum(Weights(exp, s, m))
  {
    hide Softmax, Weights, Blend;
    var u := Weights(exp, s, m);
    SoftmaxIsScaled(exp, s, m);
    BlendScaled(Softmax(exp, s), 1.0 / Sum(u), u, v, dim, d);
    OverIsTimes(Blend(u, v, dim, d), Sum(u));
  }

  lemma SoftmaxSumsToOne(exp: real -> real, s: seq<Score>)
    requires ExpLaws(exp) && MaxOver(s).Fin?
    ensures Sum(Softmax(exp, s)) == 1.0
  {
    hide Softmax, Weights, Sum;
    var u := Weights(exp, s, MaxOver(s));
    SoftmaxIsScaled(exp, s, MaxOver(s));
    SumScaled(Softmax(exp, s), 1.0 / Sum(u), u);
  }

  lemma CancelFactor(c: real, x: real, y: real)
    requires c > 0.0 && y > 0.0
    ensures c * y > 0.0 && (c * x) / (c * y) == (1.0 / y) * x
  {
    assert c * y > 0.0;
    var r := (1.0 / y) * x;
    assert r * y == x by {
      assert (1.0 / y) * y == 1.0;
      assert r * y == ((1.0 / y) * y) * x;
    }
    assert c * x == r * (c * y);
  }

  lemma OverIsTimes(x: real, y: real)
    requires y > 0.0
    ensures (1.0 / y) * x == x / y
  {
  }

  // ------------------------------------------------------------------ online softmax

  /** One row of the kernel's running state. */
  datatype Running = Running(max: Score, sum: real, acc: Vec)

  /** Folding one block of scores and values into a row. */
  function Fold(exp: real -> real, r: Running, s: seq<Score>, v: seq<Vec>, dim: nat): (r': Running)
    requires |s| == |v| && Rows(v, dim) && |r.acc| == dim && Max(r.max, MaxOver(s)).Fin?
    ensures |r'.acc| == dim
  {
    var newMax := Max(r.max, MaxOver(s));
    var correction := ExpOf(exp, Sub(r.max, newMax));
    var probs := Weights(exp, s, newMax);
    Running(newMax, r.sum * correction + Sum(probs),
            seq(dim, d requires 0 <= d < dim => r.acc[d] * correction + Blend(probs, v, dim, d)))
  }

  /** The running maximum, sum and accumulator are those of the scores and values seen so far. */
  ghost predicate Summarizes(exp: real -> real, r: Running, s: seq<Score>, v: seq<Vec>, dim: nat) {
    && |s| == |v| && Rows(v, dim) && |r.acc| == dim && r.max == MaxOver(s)
    && (r.max.Fin? ==>
          && r.sum == Sum(Weights(exp, s, r.max))
          && forall d :: 0 <= d < dim ==> r.acc[d] == Blend(Weights(exp, s, r.max), v, dim, d))
  }

  /** While nothing was visible, the weights against a later maximum are all zero. */
  lemma {:induction false} NothingVisible(exp: real -> real, s: seq<Score>, m: Score)
    requires MaxOver(s).NegInf? && m.Fin?
    ensures forall j :: 0 <= j < |s| ==> Weights(exp, s, m)[j] == 0.0
  {
    if s != [] {
      NothingVisible(exp, s[..|s| - 1], m);
      forall j | 0 <= j < |s|
        ensures Weights(exp, s, m)[j] == 0.0
      {
        assert j < |s| - 1 ==> Weights(exp, s, m)[j] == Weights(exp, s[..|s| - 1], m)[j];
      }
    }
  }

  /** Rescaled to the new maximum, a summary's sum is still one; with nothing visible it counts for nothing. */
  lemma SumRescaled(exp: real -> real, r: Running, s: seq<Score>, v: seq<Vec>, dim: nat, m: Score)
    requires ExpLaws(exp) && Summarizes(exp, r, s, v, dim) && m.Fin?
    ensures r.sum * ExpOf(exp, Sub(r.max, m)) == Sum(Weights(exp, s, m))
  {
    var w := Weights(exp, s, m);
    if r.max.Fin? {
      WeightsShift(exp, s, r.max, m);
      SumScaled(w, ExpOf(exp, Sub(r.max, m)), Weights(exp, s, r.max));
    } else {
      NothingVisible(exp, s, m);
      SumScaled(w, 0.0, w);
    }
  }

  /** And so is its accumulator. */
  lemma AccRescaled(exp: real -> real, r: Running, s: seq<Score>, v: seq<Vec>, dim: nat, m: Score, d: nat)
    requires ExpLaws(exp) && Summarizes(exp, r, s, v, dim) && m.Fin? && d < dim
    ensures r.acc[d] * ExpOf(exp, Sub(r.max, m)) == Blend(Weights(exp, s, m), v, dim, d)
  {
    var w := Weights(exp, s, m);
    if r.max.Fin? {
      WeightsShift(exp, s, r.max, m);
      BlendScaled(w, ExpOf(exp, Sub(r.max, m)), Weights(exp, s, r.max), v, dim, d);
    } else {
      NothingVisible(exp, s, m);
      BlendScaled(w, 0.0, w, v, dim, d);
    }
  }

  lemma FoldedSum(exp: real -> real, r: Running, s: seq<Score>, v: seq<Vec>, s': seq<Score>, v': seq<Vec>, dim: nat)
    requires ExpLaws(exp) && Summarizes(exp, r, s, v, dim)
    requires |s'| == |v'| && Rows(v', dim) && Max(r.max, MaxOver(s')).Fin?
    ensures Fold(exp, r, s', v', dim).sum == Sum(Weights(exp, s + s', Max(r.max, MaxOver(s'))))
  {
    hide Weights, Blend, Sum, MaxOver;
    var m := Max(r.max, MaxOver(s'));
    WeightsAppend(exp, s, s', m);
    SumAppend(Weights(exp, s, m), Weights(exp, s', m));
    SumRescaled(exp, r, s, v, dim, m);
  }

  lemma FoldedAcc(exp: real -> real, r: Running, s: seq<Score>, v: seq<Vec>, s': seq<Score>, v': seq<Vec>, dim: nat,
                  d: nat)
    requires ExpLaws(exp) && Summarizes(exp, r, s, v, dim) && d < dim
    requires |s'| == |v'| && Rows(v', dim) && Max(r.max, MaxOver(s')).Fin?
    ensures Fold(exp, r, s', v', dim).acc[d] == Blend(Weights(exp, s + s', Max(r.max, MaxOver(s'))), v + v', dim, d)
  {
    hide Weights;
    var m := Max(r.max, MaxOver(s'));
    WeightsAppend(exp, s, s', m);
    AccRescaled(exp, r, s, v, dim, m, d);
    BlendAppend(Weights(exp, s, m), Weights(exp, s', m), v, v', dim, d);
  }

  /** Folding a block keeps the summary. */
  lemma FoldSummarizes(exp: real -> real, r: Running, s: seq<Score>, v: seq<Vec>, s': seq<Score>, v': seq<Vec>,
                       dim: nat)
    requires ExpLaws(exp) && Summarizes(exp, r, s, v, dim)
    requires |s'| == |v'| && Rows(v', dim) && Max(r.max, MaxOver(s')).Fin?
    ensures Summarizes(exp, Fold(exp, r, s', v', dim), s + s', v + v', dim)
  {
    hide Weights, Blend, Sum;
    MaxOverAppend(s, s');
    FoldedSum(exp, r, s, v, s', v', dim);
    forall d | 0 <= d < dim
      ensures Fold(exp, r, s', v', dim).acc[d] == Blend(Weights(exp, s + s', MaxOver(s + s')), v + v', dim, d)
    {
      FoldedAcc(exp, r, s, v, s', v', dim, d);
    }
  }

  /** A summary of every score divides out to dense attention, with a positive divisor. */
  lemma SummaryIsDense(exp: real -> real, r: Running, q: Vec, k: seq<Vec>, v: seq<Vec>, scale: real, limit: nat, d: nat)
    requires ExpLaws(exp) && Rows(k, |q|) && Rows(v, |q|) && |k| == |v| > 0 && d < |q|
    requires Summarizes(exp, r, Scores(q, k, scale, 0, limit), v, |q|)
    ensures r.max.Fin? && r.sum > 0.0
    ensures r.acc[d] / r.sum == DenseRow(exp, q, k, v, scale, limit)[d]
  {
    FirstIsVisible(q, k, scale, limit);
    SoftmaxBlend(exp, Scores(q, k, scale, 0, limit), r.max, v, |q|, d);
  }

  // ------------------------------------------------------------------ the causal mask

  /** Scores that are all masked change nothing. */
  lemma MaskedAddsNothing(exp: real -> real, s: seq<Score>, hidden: seq<Score>, v: seq<Vec>, u: seq<Vec>, dim: nat,
                          d: nat)
    requires ExpLaws(exp) && MaxOver(s).Fin? && |s| == |v| && |hidden| == |u| && Rows(v, dim) && Rows(u, dim) && d < dim
    requires MaxOver(hidden).NegInf?
    ensures MaxOver(s + hidden).Fin?
    ensures Blend(Softmax(exp, s + hidden), v + u, dim, d) == Blend(Softmax(exp, s), v, dim, d)
  {
    var m := MaxOver(s);
    MaxOverAppend(s, hidden);
    var w, z := Weights(exp, s, m), Weights(exp, hidden, m);
    WeightsAppend(exp, s, hidden, m);
    NothingVisible(exp, hidden, m);
    SumAppend(w, z);
    SumScaled(z, 0.0, z);
    BlendAppend(w, z, v, u, dim, d);
    BlendScaled(z, 0.0, z, u, dim, d);
    SoftmaxBlend(exp, s, m, v, dim, d);
    SoftmaxBlend(exp, s + hidden, m, v + u, dim, d);
  }

  lemma {:induction false} AllMasked(s: seq<Score>)
    requires forall j :: 0 <= j < |s| ==> s[j].NegInf?
    ensures MaxOver(s).NegInf?
  {
    if s != [] {
      AllMasked(s[..|s| - 1]);
    }
  }

  /** A query sees the positions up to its own and no others. */
  lemma DenseSeesPrefix(exp: real -> real, q: Vec, k: seq<Vec>, v: seq<Vec>, scale: real, limit: nat)
    requires ExpLaws(exp) && Rows(k, |q|) && Rows(v, |q|) && |k| == |v| && limit < |k|
    ensures DenseRow(exp, q, k, v, scale, limit) == DenseRow(exp, q, k[..limit + 1], v[..limit + 1], scale, limit)
  {
    var n := limit + 1;
    var s, hidden := Scores(q, k[..n], scale, 0, limit), Scores(q, k[n..], scale, n, limit);
    assert k == k[..n] + k[n..] && v == v[..n] + v[n..];
    ScoresAppend(q, k[..n], k[n..], scale, limit);
    AllMasked(hidden);
    FirstIsVisible(q, k[..n], scale, limit);
    forall d | 0 <= d < |q|
      ensures DenseRow(exp, q, k, v, scale, limit)[d] == DenseRow(exp, q, k[..n], v[..n], scale, limit)[d]
    {
      MaskedAddsNothing(exp, s, hidden, v[..n], v[n..], |q|, d);
    }
  }

  // ------------------------------------------------------------------ grouped-query heads

  function Repeated<T>(x: T, n: nat): (r: seq<T>)
    ensures |r| == n
  {
    seq(n, _ => x)
  }

  /** `repeat_kv`: each head `n` times in a row */
  function RepeatKv<T>(x: seq<T>, n: nat): (r: seq<T>)
    ensures |r| == |x| * n
  {
    if x == [] then [] else RepeatKv(x[..|x| - 1], n) + Repeated(x[|x| - 1], n)
  }

  /** Query head `h` reads KV head `h / n`. */
  lemma {:induction false} RepeatKvAt<T>(x: seq<T>, n: nat, h: nat)
    requires h < |x| * n
    ensures n > 0 && h / n < |x| && RepeatKv(x, n)[h] == x[h / n]
  {
    DivisorBound(h, |x|, n);
    var m := |x| - 1;
    assert |x| * n == m * n + n;
    if h < m * n {
      RepeatKvAt(x[..m], n, h);
    } else {
      DivModUnique(m, n, h - m * n);
    }
  }

  // ------------------------------------------------------------------ the kernel

  /** One gathered KV block, `k` and `v` indexed `[kv head][position][dimension]`. */
  datatype KvBlock = KvBlock(n: nat, k: seq<seq<Vec>>, v: seq<seq<Vec>>)

  ghost predicate BlockOk(b: KvBlock, kvHeads: nat, dim: nat) {
    && b.n > 0 && |b.k| == |b.v| == kvHeads
    && forall g :: 0 <= g < kvHeads ==> |b.k[g]| == |b.v[g]| == b.n && Rows(b.k[g], dim) && Rows(b.v[g], dim)
  }

  ghost predicate BlocksOk(blocks: seq<KvBlock>, kvHeads: nat, dim: nat) {
    forall b :: 0 <= b < |blocks| ==> BlockOk(blocks[b], kvHeads, dim)
  }

  function KvLen(blocks: seq<KvBlock>): nat {
    if blocks == [] then 0 else KvLen(blocks[..|blocks| - 1]) + blocks[|blocks| - 1].n
  }

  datatype Part = K | V

  function PartOf(b: KvBlock, part: Part): seq<seq<Vec>> {
    if part.K? then b.k else b.v
  }

  /** The keys or values of one head, all blocks concatenated. */
  ghost function Joined(blocks: seq<KvBlock>, kvHeads: nat, dim: nat, part: Part, g: nat): (rows: seq<Vec>)
    requires BlocksOk(blocks, kvHeads, dim) && g < kvHeads
    ensures |rows| == KvLen(blocks) && Rows(rows, dim)
  {
    if blocks == [] then [] else
      var last := blocks[|blocks| - 1];
      assert BlockOk(last, kvHeads, dim);
      Joined(blocks[..|blocks| - 1], kvHeads, dim, part, g) + PartOf(last, part)[g]
  }

  ghost predicate QueriesOk(q: seq<seq<Vec>>, seqQ: nat, dim: nat) {
    forall h :: 0 <= h < |q| ==> |q[h]| == seqQ && Rows(q[h], dim)
  }

  /** What the kernel owes its caller: row `(h, i)` is dense causal attention over everything up to its position. */
  ghost predicate IsDense(exp: real -> real, q: seq<seq<Vec>>, blocks: seq<KvBlock>, kvHeads: nat, nRep: nat,
                          seqQ: nat, dim: nat, scale: real, out: seq<seq<Vec>>)
    requires ExpLaws(exp) && BlocksOk(blocks, kvHeads, dim) && QueriesOk(q, seqQ, dim)
    requires |q| == kvHeads * nRep && seqQ <= KvLen(blocks)
  {
    |out| == |q| && forall h :: 0 <= h < |q| ==> |out[h]| == seqQ && forall i :: 0 <= i < seqQ ==>
      var g := KvHead(h, nRep, kvHeads);
      out[h][i] == DenseRow(exp, q[h][i], Joined(blocks, kvHeads, dim, K, g), Joined(blocks, kvHeads, dim, V, g), scale,
                            KvLen(blocks) - seqQ + i)
  }

  function KvHead(h: nat, nRep: nat, kvHeads: nat): (g: nat)
    requires h < kvHeads * nRep
    ensures g < kvHeads
  {
    DivisorBound(h, kvHeads, nRep);
    h / nRep
  }

  /** Row state `r` has seen all of `blocks`. */
  ghost predicate Seen(exp: real -> real, r: Running, q: Vec, blocks: seq<KvBlock>, kvHeads: nat, g: nat, dim: nat,
                       scale: real, limit: nat)
    requires BlocksOk(blocks, kvHeads, dim) && g < kvHeads && |q| == dim
  {
    Summarizes(exp, r, Scores(q, Joined(blocks, kvHeads, dim, K, g), scale, 0, limit),
      Joined(blocks, kvHeads, dim, V, g), dim)
  }

  /** The operands of a fold fit, and no maximum in it is minus infinity. */
  ghost predicate Foldable(r: Running, q: Vec, k: seq<Vec>, v: seq<Vec>, scale: real, start: nat, limit: nat,
                           dim: nat) {
    && |q| == dim && |k| == |v| && Rows(k, dim) && Rows(v, dim) && |r.acc| == dim
    && Max(r.max, MaxOver(Scores(q, k, scale, start, limit))).Fin?
  }

  function FoldRow(exp: real -> real, r: Running, q: Vec, k: seq<Vec>, v: seq<Vec>, scale: real, start: nat,
                   limit: nat, dim: nat): Running
    requires Foldable(r, q, k, v, scale, start, limit, dim)
  {
    Fold(exp, r, Scores(q, k, scale, start, limit), v, dim)
  }

  /** From the first block on a row's maximum is finite, later fully masked blocks included. */
  lemma MaxIsFinite(exp: real -> real, r: Running, q: Vec, blocks: seq<KvBlock>, kvHeads: nat, g: nat, dim: nat,
                    scale: real, limit: nat)
    requires BlocksOk(blocks, kvHeads, dim) && g < kvHeads && |q| == dim && blocks != []
    requires Seen(exp, r, q, blocks, kvHeads, g, dim, scale, limit)
    ensures r.max.Fin?
  {
    assert BlockOk(blocks[|blocks| - 1], kvHeads, dim);
    FirstIsVisible(q, Joined(blocks, kvHeads, dim, K, g), scale, limit);
  }

  /** The operands of the next fold fit, and the fold has seen one block more. */
  lemma RowStep(exp: real -> real, r: Running, q: Vec, blocks: seq<KvBlock>, b: KvBlock, kvHeads: nat, g: nat, dim: nat,
                scale: real, limit: nat)
    requires ExpLaws(exp) && BlocksOk(blocks, kvHeads, dim) && BlockOk(b, kvHeads, dim) && g < kvHeads && |q| == dim
    requires Seen(exp, r, q, blocks, kvHeads, g, dim, scale, limit)
    ensures BlocksOk(blocks + [b], kvHeads, dim)
    ensures Foldable(r, q, b.k[g], b.v[g], scale, KvLen(blocks), limit, dim)
    ensures Seen(exp, FoldRow(exp, r, q, b.k[g], b.v[g], scale, KvLen(blocks), limit, dim),
                 q, blocks + [b], kvHeads, g, dim, scale, limit)
  {
    hide Weights, Fold, Summarizes;
    assert (blocks + [b])[..|blocks|] == blocks;
    var k, v := Joined(blocks, kvHeads, dim, K, g), Joined(blocks, kvHeads, dim, V, g);
    StillFoldable(exp, r, q, blocks, b, kvHeads, g, dim, scale, limit);
    ScoresAppend(q, k, b.k[g], scale, limit);
    FoldSummarizes(exp, r, Scores(q, k, scale, 0, limit), v, Scores(q, b.k[g], scale, |k|, limit), b.v[g], dim);
  }

  lemma StillFoldable(exp: real -> real, r: Running, q: Vec, blocks: seq<KvBlock>, b: KvBlock, kvHeads: nat, g: nat,
                      dim: nat,
                      scale: real, limit: nat)
    requires BlocksOk(blocks, kvHeads, dim) && BlockOk(b, kvHeads, dim) && g < kvHeads && |q| == dim
    requires Seen(exp, r, q, blocks, kvHeads, g, dim, scale, limit)
    ensures Foldable(r, q, b.k[g], b.v[g], scale, KvLen(blocks), limit, dim)
  {
    hide Weights, Joined;
    if blocks == [] {
      FirstIsVisible(q, b.k[g], scale, limit);
    } else {
      MaxIsFinite(exp, r, q, blocks, kvHeads, g, dim, scale, limit);
    }
  }

  /** Every row of the state has seen `blocks`. */
  ghost predicate AllSeen(exp: real -> real, state: seq<seq<Running>>, q: seq<seq<Vec>>, blocks: seq<KvBlock>,
                          kvHeads: nat, nRep: nat, seqQ: nat, dim: nat, scale: real, offset: nat)
    requires BlocksOk(blocks, kvHeads, dim) && QueriesOk(q, seqQ, dim) && |q| == kvHeads * nRep
  {
    |state| == |q| && forall h :: 0 <= h < |q| ==> |state[h]| == seqQ && forall i :: 0 <= i < seqQ ==>
      Seen(exp, state[h][i], q[h][i], blocks, kvHeads, KvHead(h, nRep, kvHeads), dim, scale, offset + i)
  }

  /** One pass of the loop body: every row folds in its head of the block. */
  function FoldBlock(exp: real -> real, state: seq<seq<Running>>, q: seq<seq<Vec>>, k: seq<seq<Vec>>, v: seq<seq<Vec>>,
                     seqQ: nat, dim: nat, scale: real, start: nat, offset: nat): (r: seq<seq<Running>>)
    requires |state| == |q| == |k| == |v| && forall h :: 0 <= h < |q| ==> |state[h]| == |q[h]| == seqQ
    requires forall h, i :: 0 <= h < |q| && 0 <= i < seqQ ==>
      Foldable(state[h][i], q[h][i], k[h], v[h], scale, start, offset + i, dim)
  {
    seq(|q|, h requires 0 <= h < |q| =>
      seq(seqQ, i requires 0 <= i < seqQ =>
        FoldRow(exp, state[h][i], q[h][i], k[h], v[h], scale, start, offset + i, dim)))
  }

  lemma BlockStep(exp: real -> real, state: seq<seq<Running>>, q: seq<seq<Vec>>, blocks: seq<KvBlock>, b: KvBlock,
                  kvHeads: nat, nRep: nat, seqQ: nat, dim: nat, scale: real, offset: nat)
    requires ExpLaws(exp) && BlocksOk(blocks, kvHeads, dim) && BlockOk(b, kvHeads, dim)
    requires QueriesOk(q, seqQ, dim) && |q| == kvHeads * nRep
    requires AllSeen(exp, state, q, blocks, kvHeads, nRep, seqQ, dim, scale, offset)
    ensures BlocksOk(blocks + [b], kvHeads, dim)
    ensures forall h, i :: 0 <= h < |q| && 0 <= i < seqQ ==>
      Foldable(state[h][i], q[h][i], RepeatKv(b.k, nRep)[h], RepeatKv(b.v, nRep)[h], scale, KvLen(blocks), offset + i,
        dim)
    ensures AllSeen(exp,
      FoldBlock(exp, state, q, RepeatKv(b.k, nRep), RepeatKv(b.v, nRep), seqQ, dim, scale, KvLen(blocks), offset),
                    q, blocks + [b], kvHeads, nRep, seqQ, dim, scale, offset)
  {
    hide Foldable, Seen, FoldRow, RepeatKv;
    forall h, i | 0 <= h < |q| && 0 <= i < seqQ
      ensures Foldable(state[h][i], q[h][i], RepeatKv(b.k, nRep)[h], RepeatKv(b.v, nRep)[h], scale, KvLen(blocks),
        offset + i, dim)
      ensures Seen(exp, FoldRow(exp, state[h][i], q[h][i], RepeatKv(b.k, nRep)[h], RepeatKv(b.v, nRep)[h], scale,
        KvLen(blocks), offset + i, dim),
                   q[h][i], blocks + [b], kvHeads, KvHead(h, nRep, kvHeads), dim, scale, offset + i)
    {
      RepeatKvAt(b.k, nRep, h);
      RepeatKvAt(b.v, nRep, h);
      RowStep(exp, state[h][i], q[h][i], blocks, b, kvHeads, KvHead(h, nRep, kvHeads), dim, scale, offset + i);
    }
  }

  /** The final division of one row. */
  function Divided(r: Running): Vec
    requires r.sum != 0.0
  {
    seq(|r.acc|, d requires 0 <= d < |r.acc| => r.acc[d] / r.sum)
  }

  lemma DividedIsDense(exp: real -> real, r: Running, q: Vec, blocks: seq<KvBlock>, kvHeads: nat, g: nat, dim: nat,
                       scale: real, limit: nat)
    requires ExpLaws(exp) && BlocksOk(blocks, kvHeads, dim) && g < kvHeads && |q| == dim && KvLen(blocks) > 0
    requires Seen(exp, r, q, blocks, kvHeads, g, dim, scale, limit)
    ensures r.max.Fin? && r.sum > 0.0
    ensures Divided(r) ==
      DenseRow(exp, q, Joined(blocks, kvHeads, dim, K, g), Joined(blocks, kvHeads, dim, V, g), scale, limit)
  {
    var k, v := Joined(blocks, kvHeads, dim, K, g), Joined(blocks, kvHeads, dim, V, g);
    FirstIsVisible(q, k, scale, limit);
    WeightsSumPositive(exp, Scores(q, k, scale, 0, limit), r.max);
    forall d | 0 <= d < dim
      ensures r.acc[d] / r.sum == DenseRow(exp, q, k, v, scale, limit)[d]
    {
      SummaryIsDense(exp, r, q, k, v, scale, limit, d);
    }
  }

  lemma StartsSeen(exp: real -> real, state: seq<seq<Running>>, q: seq<seq<Vec>>, kvHeads: nat, nRep: nat,
                   seqQ: nat, dim: nat, scale: real, offset: nat)
    requires QueriesOk(q, seqQ, dim) && |q| == kvHeads * nRep
    requires |state| == |q| && forall h :: 0 <= h < |q| ==> |state[h]| == seqQ && forall i :: 0 <= i < seqQ ==>
      state[h][i].max == NegInf && |state[h][i].acc| == dim
    ensures AllSeen(exp, state, q, [], kvHeads, nRep, seqQ, dim, scale, offset)
  {
  }

  lemma AllDivided(exp: real -> real, state: seq<seq<Running>>, q: seq<seq<Vec>>, blocks: seq<KvBlock>,
                   kvHeads: nat, nRep: nat, seqQ: nat, dim: nat, scale: real)
    requires ExpLaws(exp) && BlocksOk(blocks, kvHeads, dim) && QueriesOk(q, seqQ, dim)
    requires |q| == kvHeads * nRep && seqQ <= KvLen(blocks)
    requires AllSeen(exp, state, q, blocks, kvHeads, nRep, seqQ, dim, scale, KvLen(blocks) - seqQ)
    ensures forall h, i :: 0 <= h < |q| && 0 <= i < seqQ ==> state[h][i].max.Fin? && state[h][i].sum > 0.0
    ensures IsDense(exp, q, blocks, kvHeads, nRep, seqQ, dim, scale, Quotients(state, seqQ))
  {
    hide Seen, Divided, DenseRow, Joined;
    forall h, i | 0 <= h < |q| && 0 <= i < seqQ
      ensures state[h][i].max.Fin? && state[h][i].sum > 0.0
      ensures var g := KvHead(h, nRep, kvHeads);
        Divided(state[h][i]) ==
          DenseRow(exp, q[h][i], Joined(blocks, kvHeads, dim, K, g), Joined(blocks, kvHeads, dim, V, g), scale,
                                         KvLen(blocks) - seqQ + i)
    {
      DividedIsDense(exp, state[h][i], q[h][i], blocks, kvHeads, KvHead(h, nRep, kvHeads), dim, scale,
        KvLen(blocks) - seqQ + i);
    }
  }

  function Quotients(state: seq<seq<Running>>, seqQ: nat): seq<seq<Vec>>
    requires forall h :: 0 <= h < |state| ==> |state[h]| == seqQ
    requires forall h, i :: 0 <= h < |state| && 0 <= i < seqQ ==> state[h][i].sum != 0.0
  {
    seq(|state|, h requires 0 <= h < |state| => seq(seqQ, i requires 0 <= i < seqQ => Divided(state[h][i])))
  }

  /**
   `paged_attention`, for one batch entry. The caller owes nonempty blocks of one shape and no more
   queries than keys; every row then is dense causal attention over the concatenated blocks, however
   they were cut.
   */
  method PagedAttention(exp: real -> real, q: seq<seq<Vec>>, blocks: seq<KvBlock>, kvHeads: nat, nRep: nat,
                        seqQ: nat, dim: nat, scale: real)
    returns (out: seq<seq<Vec>>)
    requires ExpLaws(exp) && BlocksOk(blocks, kvHeads, dim) && QueriesOk(q, seqQ, dim)
    requires |q| == kvHeads * nRep && seqQ <= KvLen(blocks)
    ensures IsDense(exp, q, blocks, kvHeads, nRep, seqQ, dim, scale, out)
  {
    hide Seen, DenseRow, Joined, RepeatKv, FoldRow, Foldable, Divided;
    var kvLen := KvLen(blocks);
    var offset := kvLen - seqQ;
    var initial := Running(NegInf, 0.0, seq(dim, _ => 0.0));
    var state := seq(|q|, _ => seq(seqQ, _ => initial));
    var kvStart := 0;
    StartsSeen(exp, state, q, kvHeads, nRep, seqQ, dim, scale, offset);
    var t := 0;
    while t < |blocks|
      invariant 0 <= t <= |blocks| && BlocksOk(blocks[..t], kvHeads, dim) && kvStart == KvLen(blocks[..t])
      invariant AllSeen(exp, state, q, blocks[..t], kvHeads, nRep, seqQ, dim, scale, offset)
    {
      var b := blocks[t];
      var k, v := RepeatKv(b.k, nRep), RepeatKv(b.v, nRep);
      assert blocks[..t + 1] == blocks[..t] + [b] && blocks[..t + 1][..t] == blocks[..t];
      BlockStep(exp, state, q, blocks[..t], b, kvHeads, nRep, seqQ, dim, scale, offset);
      state := FoldBlock(exp, state, q, k, v, seqQ, dim, scale, kvStart, offset);
      kvStart := kvStart + b.n;
      t := t + 1;
    }
    assert blocks[..t] == blocks;
    AllDivided(exp, state, q, blocks, kvHeads, nRep, seqQ, dim, scale);
    out := Quotients(state, seqQ);
  }
}

/** The portable KV bundle as data (src/kv_cache/bundle.rs), and its tensors seen slot by slot. */
module Bundle {
  import opened Network

  datatype DType = F32 | F16 | BF16 {
    function SizeInBytes(): nat {
      if F32? then 4 else 2
    }

    /** One more than the largest bit pattern of an element. */
    function Limit(): nat {
      if F32? then 0x1_0000_0000 else 0x1_0000
    }
  }

  /** A contiguous tensor of shape `(heads, n, dim)`, its elements in row-major order. */
  datatype RawTensor = RawTensor(dtype: DType, heads: nat, n: nat, dim: nat, data: seq<Word>)
  type Tensor = t: RawTensor |
      |t.data| == t.heads * t.n * t.dim && forall i :: 0 <= i < |t.data| ==> t.data[i] < t.dtype.Limit()
    witness RawTensor(F32, 0, 0, 0, [])

  datatype Meta = Meta(modelId: string, tokenCount: nat, tokenIds: seq<Token>, blockSize: nat,
                       numLayers: nat, numKvHeads: nat, headDim: nat, dtype: DType)
  datatype LayerBlock = LayerBlock(k: Tensor, v: Tensor)
  datatype BundleBlock = BundleBlock(logicalIdx: nat, layers: seq<LayerBlock>)
  datatype KvBundle = KvBundle(meta: Meta, blocks: seq<BundleBlock>)

  lemma ProductMonotone(a: nat, b: nat, c: nat)
    ensures a <= b ==> a * c <= b * c
  {
  }

  lemma QuotientUnique(q: nat, r: nat, a: nat, b: nat, n: nat)
    requires r < n && b < n && q * n + r == a * n + b
    ensures q == a
  {
    ProductMonotone(q + 1, a, n);
    ProductMonotone(a + 1, q, n);
  }

  lemma DivModUnique(a: nat, n: nat, b: nat)
    requires b < n
    ensures (a * n + b) / n == a && (a * n + b) % n == b
  {
    var x := a * n + b;
    QuotientUnique(x / n, x % n, a, b, n);
  }

  lemma BelowProduct(a: nat, x: nat, n: nat, y: nat)
    requires a < x && y < n
    ensures a * n + y < x * n
  {
    assert (a + 1) * n <= x * n;
  }

  /** Where element `(h, s, d)` sits in row-major order. */
  function Index(t: RawTensor, h: nat, s: nat, d: nat): (i: nat)
    requires h < t.heads && s < t.n && d < t.dim
    ensures i < t.heads * t.n * t.dim
  {
    BelowProduct(h, t.heads, t.n, s);
    BelowProduct(h * t.n + s, t.heads * t.n, t.dim, d);
    (h * t.n + s) * t.dim + d
  }

  /** The part of a tensor that belongs to slot `s`. */
  function RowOf(t: Tensor, s: nat): (r: Row)
    requires s < t.n
    ensures RowOk(t.dtype, t.heads, t.dim, r)
  {
    seq(t.heads, h requires 0 <= h < t.heads =>
      seq(t.dim, d requires 0 <= d < t.dim => t.data[Index(t, h, s, d)]))
  }

  ghost predicate RowOk(dtype: DType, heads: nat, dim: nat, r: Row) {
    && |r| == heads
    && forall h :: 0 <= h < heads ==> |r[h]| == dim && forall d :: 0 <= d < dim ==> r[h][d] < dtype.Limit()
  }

  ghost predicate RowsOk(dtype: DType, heads: nat, dim: nat, rows: seq<Row>) {
    forall s :: 0 <= s < |rows| ==> RowOk(dtype, heads, dim, rows[s])
  }

  lemma DivisorBound(i: nat, m: nat, n: nat)
    requires i < m * n
    ensures n > 0 && i / n < m
  {
    ProductMonotone(m, i / n, n);
  }

  /** Element `i`, in row-major order, of the tensor made of `rows`. */
  function ElementOf(dtype: DType, heads: nat, dim: nat, rows: seq<Row>, i: nat): (w: Word)
    requires RowsOk(dtype, heads, dim, rows) && i < heads * |rows| * dim
    ensures w < dtype.Limit()
  {
    DivisorBound(i, heads * |rows|, dim);
    DivisorBound(i / dim, heads, |rows|);
    var s, h, d := i / dim % |rows|, i / dim / |rows|, i % dim;
    assert RowOk(dtype, heads, dim, rows[s]);
    rows[s][h][d]
  }

  /** The contiguous copy of a run of pool slots (`block_view`, `squeeze`, `contiguous`). */
  function TensorOf(dtype: DType, heads: nat, dim: nat, rows: seq<Row>): (t: Tensor)
    requires RowsOk(dtype, heads, dim, rows)
    ensures t.dtype == dtype && t.heads == heads && t.n == |rows| && t.dim == dim
  {
    var size: nat := heads * |rows| * dim;
    RawTensor(dtype, heads, |rows|, dim, seq(size, i requires 0 <= i < size => ElementOf(dtype, heads, dim, rows, i)))
  }

  /** Copying rows into a tensor and reading slot `s` back gives row `s`. */
  lemma RowOfTensorOf(dtype: DType, heads: nat, dim: nat, rows: seq<Row>, s: nat)
    requires RowsOk(dtype, heads, dim, rows) && s < |rows|
    ensures RowOf(TensorOf(dtype, heads, dim, rows), s) == rows[s]
  {
    var t, n := TensorOf(dtype, heads, dim, rows), |rows|;
    var r := RowOf(t, s);
    forall h | 0 <= h < heads
      ensures r[h] == rows[s][h]
    {
      forall d | 0 <= d < dim
        ensures r[h][d] == rows[s][h][d]
      {
        DivModUnique(h * n + s, dim, d);
        DivModUnique(h, n, s);
        var i := Index(t, h, s, d);
        assert i / dim == h * n + s && i % dim == d;
      }
    }
  }
}

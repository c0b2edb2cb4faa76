/**
 The transformer as the cache sees it: opaque per-layer maps, composed causally.

 `embed` is the token embedding, `project(l, p, x)` the K/V projections of layer `l` with RoPE
 applied at absolute position `p`, `mix(l, p, x, kv)` the rest of the layer (query projection with
 RoPE at `p`, attention over the visible keys and values `kv`, output projection, MLP), and `head`
 the final norm and vocabulary projection.
 */
module Network {

  type Token = nat
  /** The bit pattern of one tensor element. */
  type Word = nat
  /** K or V of one position, indexed `[kv head][dimension]`. */
  type Row = seq<seq<Word>>
  type Act = seq<real>

  datatype Cell = Cell(k: Row, v: Row)

  datatype Net = Net(embed: Token -> Act,
                     project: (nat, nat, Act) -> Cell,
                     mix: (nat, nat, Act, seq<Cell>) -> Act,
                     head: Act -> Act)

  /** The input of layer `l` at position `p` in a cold run over `toks`. */
  function ActAt(net: Net, toks: seq<Token>, l: nat, p: nat): Act
    requires p < |toks|
    decreases l, 0
  {
    if l == 0 then net.embed(toks[p])
    else net.mix(l - 1, p, ActAt(net, toks, l - 1, p), KvUpTo(net, toks, l - 1, p + 1))
  }

  /** The keys and values layer `l` computes for positions `0..n` in a cold run over `toks`. */
  function KvUpTo(net: Net, toks: seq<Token>, l: nat, n: nat): (kv: seq<Cell>)
    requires n <= |toks|
    ensures |kv| == n
    decreases l, 1
  {
    seq(n, p requires 0 <= p < n => net.project(l, p, ActAt(net, toks, l, p)))
  }

  function KvAt(net: Net, toks: seq<Token>, l: nat, p: nat): Cell
    requires p < |toks|
  {
    net.project(l, p, ActAt(net, toks, l, p))
  }

  /** The logits of the last of `toks` in a cold run through `layers` layers. */
  function LastLogits(net: Net, layers: nat, toks: seq<Token>): Act
    requires toks != []
  {
    net.head(ActAt(net, toks, layers, |toks| - 1))
  }

  /** Causality: position `p` depends on the tokens up to `p` only. */
  lemma {:induction false} Causal(net: Net, a: seq<Token>, b: seq<Token>, l: nat, p: nat)
    requires p < |a| && p < |b| && a[..p + 1] == b[..p + 1]
    ensures ActAt(net, a, l, p) == ActAt(net, b, l, p)
    ensures KvAt(net, a, l, p) == KvAt(net, b, l, p)
    decreases l
  {
    assert a[p] == a[..p + 1][p] == b[..p + 1][p];
    if l > 0 {
      var below := l - 1;
      forall q | 0 <= q <= p
        ensures ActAt(net, a, below, q) == ActAt(net, b, below, q)
      {
        assert a[..q + 1] == a[..p + 1][..q + 1] == b[..p + 1][..q + 1] == b[..q + 1];
        Causal(net, a, b, below, q);
      }
      assert KvUpTo(net, a, below, p + 1) == KvUpTo(net, b, below, p + 1);
    }
  }
}

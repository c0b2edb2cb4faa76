/**
 Writing a batch of tokens into scattered pool slots (src/models/common/paged.rs, `write`).

 The pool writes a maximal run of slots with one slice copy. The code decides whether the run goes
 on with the test `i + n == start_slot + n`, which compares the batch index `i` with the slot it
 maps to; the comment-implied test compares the slot `n` places further on with `start_slot + n`.
 Both are modelled here, as `AsWritten` and `Intended`, against one reference: token `i` goes to
 `slots[i]`, one token at a time.
 */
module PoolWrite {
  import opened Network

  datatype Rule = AsWritten | Intended

  predicate Joins(rule: Rule, slots: seq<nat>, i: nat, n: nat)
    requires i + n < |slots|
  {
    match rule
    case AsWritten => i + n == slots[i] + n
    case Intended => slots[i + n] == slots[i] + n
  }

  /** Where the inner loop stops extending a run that starts at `i` and already has `n` tokens. */
  function RunFrom(rule: Rule, slots: seq<nat>, i: nat, n: nat): (r: nat)
    requires 1 <= n && i + n <= |slots|
    ensures n <= r && i + r <= |slots|
    ensures rule.AsWritten? ==> r == if slots[i] == i then |slots| - i else n
    ensures rule.Intended? ==> forall j :: i + n <= j < i + r ==> slots[j] == slots[i] + (j - i)
    decreases |slots| - i - n
  {
    if i + n < |slots| && Joins(rule, slots, i, n) then RunFrom(rule, slots, i, n + 1) else n
  }

  /** One slice copy: `cells` over the slots from `start`. */
  function SetRun(row: seq<Cell>, start: nat, cells: seq<Cell>): (r: seq<Cell>)
    requires start + |cells| <= |row|
    ensures |r| == |row|
    ensures forall s :: 0 <= s < |row| ==>
      r[s] == if start <= s < start + |cells| then cells[s - start] else row[s]
  {
    row[..start] + cells + row[start + |cells|..]
  }

  ghost predicate Fits(n: nat, slots: seq<nat>) {
    |slots| <= n && forall i :: 0 <= i < |slots| ==> slots[i] < n
  }

  /** A run never leaves the pool. */
  lemma RunFits(rule: Rule, numSlots: nat, slots: seq<nat>, i: nat)
    requires Fits(numSlots, slots) && i < |slots|
    ensures slots[i] + RunFrom(rule, slots, i, 1) <= numSlots
  {
    var n := RunFrom(rule, slots, i, 1);
    assert rule.Intended? && n > 1 ==> slots[i + n - 1] == slots[i] + (n - 1);
  }

  /** The outer loop of `write` for one layer, from token `i` on. */
  function WriteFrom(rule: Rule, row: seq<Cell>, slots: seq<nat>, cells: seq<Cell>, i: nat): (r: seq<Cell>)
    requires Fits(|row|, slots) && |cells| == |slots| && i <= |slots|
    ensures |r| == |row|
    decreases |slots| - i
  {
    if i == |slots| then row else
      var n := RunFrom(rule, slots, i, 1);
      RunFits(rule, |row|, slots, i);
      WriteFrom(rule, SetRun(row, slots[i], cells[i..i + n]), slots, cells, i + n)
  }

  /** The reference: token by token, each to its own slot. */
  function ScatterFrom(row: seq<Cell>, slots: seq<nat>, cells: seq<Cell>, i: nat): (r: seq<Cell>)
    requires Fits(|row|, slots) && |cells| == |slots| && i <= |slots|
    ensures |r| == |row|
    decreases |slots| - i
  {
    if i == |slots| then row else ScatterFrom(row[slots[i] := cells[i]], slots, cells, i + 1)
  }

  function Scatter(row: seq<Cell>, slots: seq<nat>, cells: seq<Cell>): seq<Cell>
    requires Fits(|row|, slots) && |cells| == |slots|
  {
    ScatterFrom(row, slots, cells, 0)
  }

  /** What the reference leaves behind when no two tokens share a slot. */
  lemma {:induction false} ScatterAt(row: seq<Cell>, slots: seq<nat>, cells: seq<Cell>, i: nat)
    requires Fits(|row|, slots) && |cells| == |slots| && i <= |slots|
    requires forall j, k :: 0 <= j < k < |slots| ==> slots[j] != slots[k]
    ensures forall j :: i <= j < |slots| ==> ScatterFrom(row, slots, cells, i)[slots[j]] == cells[j]
    ensures forall s :: 0 <= s < |row| && s !in slots[i..] ==> ScatterFrom(row, slots, cells, i)[s] == row[s]
    decreases |slots| - i
  {
    if i < |slots| {
      var next := row[slots[i] := cells[i]];
      ScatterAt(next, slots, cells, i + 1);
      assert slots[i..] == [slots[i]] + slots[i + 1..];
      assert slots[i] !in slots[i + 1..];
    }
  }

  /** A slice copy over consecutive slots is that many single writes. */
  lemma {:induction false} RunIsScatter(row: seq<Cell>, slots: seq<nat>, cells: seq<Cell>, i: nat, n: nat)
    requires Fits(|row|, slots) && |cells| == |slots| && i + n <= |slots|
    requires n > 0 ==> slots[i] + n <= |row|
    requires forall j :: i <= j < i + n ==> slots[j] == slots[i] + (j - i)
    ensures n > 0 ==>
      ScatterFrom(row, slots, cells, i) == ScatterFrom(SetRun(row, slots[i], cells[i..i + n]), slots, cells, i + n)
    decreases n
  {
    if n > 0 {
      var next := row[slots[i] := cells[i]];
      if n == 1 {
        assert SetRun(row, slots[i], cells[i..i + n]) == next;
      } else {
        RunIsScatter(next, slots, cells, i + 1, n - 1);
        assert SetRun(next, slots[i] + 1, cells[i + 1..i + n]) == SetRun(row, slots[i], cells[i..i + n]);
      }
    }
  }

  /** No slot equals its batch index unless every later slot does too. */
  ghost predicate Coalescible(slots: seq<nat>) {
    forall i, j :: 0 <= i < j < |slots| && slots[i] == i ==> slots[j] == j
  }

  ghost predicate WritesRight(rule: Rule, slots: seq<nat>) {
    rule.AsWritten? ==> Coalescible(slots)
  }

  /** Under the intended test, or when no run goes astray, the loop is the reference. */
  lemma {:induction false} WriteIsScatter(rule: Rule, row: seq<Cell>, slots: seq<nat>, cells: seq<Cell>, i: nat)
    requires Fits(|row|, slots) && |cells| == |slots| && i <= |slots|
    requires WritesRight(rule, slots)
    ensures WriteFrom(rule, row, slots, cells, i) == ScatterFrom(row, slots, cells, i)
    decreases |slots| - i
  {
    if i < |slots| {
      var n := RunFrom(rule, slots, i, 1);
      RunFits(rule, |row|, slots, i);
      assert forall j :: i <= j < i + n ==> slots[j] == slots[i] + (j - i);
      RunIsScatter(row, slots, cells, i, n);
      WriteIsScatter(rule, SetRun(row, slots[i], cells[i..i + n]), slots, cells, i + n);
    }
  }

  /** So a batch over distinct slots leaves each token in its slot and the other slots alone. */
  lemma WriteAt(rule: Rule, row: seq<Cell>, slots: seq<nat>, cells: seq<Cell>)
    requires Fits(|row|, slots) && |cells| == |slots| && WritesRight(rule, slots)
    requires forall i, j :: 0 <= i < j < |slots| ==> slots[i] != slots[j]
    ensures var r := WriteFrom(rule, row, slots, cells, 0);
      && (forall i :: 0 <= i < |slots| ==> r[slots[i]] == cells[i])
      && (forall s :: 0 <= s < |row| && s !in slots ==> r[s] == row[s])
  {
    WriteIsScatter(rule, row, slots, cells, 0);
    ScatterAt(row, slots, cells, 0);
    assert slots[0..] == slots;
  }

  /** From the first fixed point on, the loop as written copies the whole rest of the batch in place. */
  lemma {:induction false} AsWrittenRest(row: seq<Cell>, slots: seq<nat>, cells: seq<Cell>, i: nat, first: nat)
    requires Fits(|row|, slots) && |cells| == |slots| && i <= first < |slots|
    requires slots[first] == first && forall j :: 0 <= j < first ==> slots[j] != j
    ensures forall s :: first <= s < |slots| ==> WriteFrom(AsWritten, row, slots, cells, i)[s] == cells[s]
    decreases first - i
  {
    var n := RunFrom(AsWritten, slots, i, 1);
    RunFits(AsWritten, |row|, slots, i);
    var next := SetRun(row, slots[i], cells[i..i + n]);
    if i < first {
      AsWrittenRest(next, slots, cells, i + 1, first);
    } else {
      assert i + n == |slots|;
    }
  }

  /** Outside the copied rest, a slot that only token `j` maps to keeps what it held. */
  lemma {:induction false} AsWrittenSkips(row: seq<Cell>, slots: seq<nat>, cells: seq<Cell>, i: nat, first: nat, s: nat)
    requires Fits(|row|, slots) && |cells| == |slots| && i <= first < |slots| && s < |row|
    requires slots[first] == first && forall j :: 0 <= j < first ==> slots[j] != j && slots[j] != s
    requires !(first <= s < |slots|)
    ensures WriteFrom(AsWritten, row, slots, cells, i)[s] == row[s]
    decreases first - i
  {
    var n := RunFrom(AsWritten, slots, i, 1);
    RunFits(AsWritten, |row|, slots, i);
    var next := SetRun(row, slots[i], cells[i..i + n]);
    if i < first {
      AsWrittenSkips(next, slots, cells, i + 1, first, s);
    } else {
      assert i + n == |slots|;
    }
  }

  /** Once a run has gone astray, a later token that does not belong in its own index never reaches its slot. */
  lemma StrayTokenIsLost(row: seq<Cell>, slots: seq<nat>, cells: seq<Cell>, i: nat, j: nat)
    requires Fits(|row|, slots) && |cells| == |slots|
    requires forall m, n :: 0 <= m < n < |slots| ==> slots[m] != slots[n]
    requires i < j < |slots| && slots[i] == i && slots[j] != j
    requires row[slots[j]] != cells[j] && forall m :: 0 <= m < |slots| && m != j ==> cells[m] != cells[j]
    ensures WriteFrom(AsWritten, row, slots, cells, 0)[slots[j]] != cells[j]
  {
    var first := FirstFixed(slots, i);
    if first <= slots[j] < |slots| {
      AsWrittenRest(row, slots, cells, 0, first);
    } else {
      AsWrittenSkips(row, slots, cells, 0, first, slots[j]);
    }
  }

  /** Slot `s` of the reference holds what was there or a token that maps to it. */
  lemma {:induction false} ScatterSource(row: seq<Cell>, slots: seq<nat>, cells: seq<Cell>, i: nat, s: nat)
    requires Fits(|row|, slots) && |cells| == |slots| && i <= |slots| && s < |row|
    ensures var r := ScatterFrom(row, slots, cells, i)[s];
      r == row[s] || exists j :: i <= j < |slots| && slots[j] == s && r == cells[j]
    decreases |slots| - i
  {
    if i < |slots| {
      ScatterSource(row[slots[i] := cells[i]], slots, cells, i + 1, s);
    }
  }

  /** The loop as written agrees with the reference for every pool row and every batch of the cells `kind` allows. */
  ghost predicate AlwaysRight(numSlots: nat, slots: seq<nat>, kind: Cell -> bool)
    requires Fits(numSlots, slots)
  {
    forall row: seq<Cell>, cells: seq<Cell>
      | |row| == numSlots && |cells| == |slots| && Only(kind, row) && Only(kind, cells) ::
      WriteFrom(AsWritten, row, slots, cells, 0) == Scatter(row, slots, cells)
  }

  ghost predicate Only(kind: Cell -> bool, cells: seq<Cell>) {
    forall s :: 0 <= s < |cells| ==> kind(cells[s])
  }

  lemma {:induction false} FirstFixed(slots: seq<nat>, i: nat) returns (first: nat)
    requires i < |slots| && slots[i] == i
    ensures first <= i && slots[first] == first && forall j :: 0 <= j < first ==> slots[j] != j
  {
    if j :| 0 <= j < i && slots[j] == j {
      first := FirstFixed(slots, j);
    } else {
      first := i;
    }
  }

  /** A run that goes astray puts token `j` into slot `j`, where the reference would not. */
  lemma AstrayRunIsWrong(row: seq<Cell>, slots: seq<nat>, cells: seq<Cell>, i: nat, j: nat)
    requires Fits(|row|, slots) && |cells| == |slots|
    requires i < j < |slots| && slots[i] == i && slots[j] != j
    requires row[j] != cells[j] && forall m :: 0 <= m < |slots| && m != j ==> cells[m] != cells[j]
    ensures WriteFrom(AsWritten, row, slots, cells, 0)[j] == cells[j] != Scatter(row, slots, cells)[j]
  {
    var first := FirstFixed(slots, i);
    AsWrittenRest(row, slots, cells, 0, first);
    ScatterSource(row, slots, cells, 0, j);
  }

  /**
   The loop as written is right for every pool and batch exactly when no run goes astray, as soon as there are
   two cells to tell apart.
   */
  lemma AsWrittenExact(numSlots: nat, slots: seq<nat>, kind: Cell -> bool, a: Cell, b: Cell)
    requires Fits(numSlots, slots) && kind(a) && kind(b) && a != b
    ensures AlwaysRight(numSlots, slots, kind) <==> Coalescible(slots)
  {
    if Coalescible(slots) {
      forall row: seq<Cell>, cells: seq<Cell> | |row| == numSlots && |cells| == |slots|
        ensures WriteFrom(AsWritten, row, slots, cells, 0) == Scatter(row, slots, cells)
      {
        WriteIsScatter(AsWritten, row, slots, cells, 0);
      }
    } else {
      var i, j :| 0 <= i < j < |slots| && slots[i] == i && slots[j] != j;
      var row := seq(numSlots, _ => b);
      var cells := seq(|slots|, m requires 0 <= m => if m == j then a else b);
      AstrayRunIsWrong(row, slots, cells, i, j);
      assert Only(kind, row) && Only(kind, cells);
    }
  }
}

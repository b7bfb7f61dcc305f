/**
 * Sequences built by appending blocks one after the other, and where each
 * block lands. Both the event log of an execution (one block per suite, one
 * per scenario inside it) and the tree built by discovery are of this shape.
 */
module Blocks {

  /** The blocks one after the other. */
  function Concat<T>(blocks: seq<seq<T>>): seq<T> {
    if blocks == [] then [] else Concat(blocks[..|blocks| - 1]) + blocks[|blocks| - 1]
  }

  /** The position where block `i` starts in the concatenation. */
  function Start<T>(blocks: seq<seq<T>>, i: nat): nat
    requires i <= |blocks|
  {
    |Concat(blocks[..i])|
  }

  lemma ConcatSnoc<T>(blocks: seq<seq<T>>, b: seq<T>)
    ensures Concat(blocks + [b]) == Concat(blocks) + b
  {
    assert (blocks + [b])[..|blocks|] == blocks;
  }

  lemma {:induction false} ConcatAppend<T>(a: seq<seq<T>>, b: seq<seq<T>>)
    ensures Concat(a + b) == Concat(a) + Concat(b)
    decreases |b|
  {
    if b == [] {
      assert a + b == a;
    } else {
      var init, last := b[..|b| - 1], b[|b| - 1];
      ConcatAppend(a, init);
      assert a + b == (a + init) + [last];
      ConcatSnoc(a + init, last);
      ConcatSnoc(init, last);
      assert init + [last] == b;
    }
  }

  /** Block `i` occupies exactly the positions from its start to the next block's start. */
  lemma ConcatBlock<T>(blocks: seq<seq<T>>, i: nat)
    requires i < |blocks|
    ensures Start(blocks, i + 1) == Start(blocks, i) + |blocks[i]|
    ensures Start(blocks, i + 1) <= |Concat(blocks)|
    ensures Concat(blocks)[Start(blocks, i)..Start(blocks, i + 1)] == blocks[i]
  {
    var before, after := blocks[..i], blocks[i + 1..];
    assert blocks[..i + 1] == before + [blocks[i]];
    ConcatSnoc(before, blocks[i]);
    assert blocks == blocks[..i + 1] + after;
    ConcatAppend(blocks[..i + 1], after);
  }

  /** Blocks are laid out in order: a later block never starts before an earlier one. */
  lemma StartMonotone<T>(blocks: seq<seq<T>>, i: nat, j: nat)
    requires i <= j <= |blocks|
    ensures Start(blocks, i) <= Start(blocks, j)
  {
    assert blocks[..j] == blocks[..i] + blocks[i..j];
    ConcatAppend(blocks[..i], blocks[i..j]);
  }

  /**
   * Where a block `b` lies in `s` from `start` on, its first and last elements
   * and any run strictly inside it lie in `s` at the same offsets.
   */
  lemma WithinBlock<T>(s: seq<T>, start: nat, b: seq<T>, off: nat, n: nat)
    requires start + |b| <= |s| && s[start..start + |b|] == b
    requires 0 < off && off + n < |b|
    ensures s[start] == b[0] && s[start + |b| - 1] == b[|b| - 1]
    ensures s[start + off..start + off + n] == b[off..off + n]
  {
    assert forall k :: off <= k < off + n ==> b[k] == s[start + k];
  }

  /** The same for block `i` of a concatenation: its ends and any run strictly inside it, located in the whole. */
  lemma BlockInConcat<T>(blocks: seq<seq<T>>, i: nat, off: nat, n: nat)
    requires i < |blocks| && 0 < off && off + n < |blocks[i]|
    ensures var s, start, b := Concat(blocks), Start(blocks, i), blocks[i];
            && Start(blocks, i + 1) == start + |b| <= |s|
            && s[start] == b[0] && s[start + |b| - 1] == b[|b| - 1]
            && s[start + off..start + off + n] == b[off..off + n]
  {
    ConcatBlock(blocks, i);
    WithinBlock(Concat(blocks), Start(blocks, i), blocks[i], off, n);
  }
}

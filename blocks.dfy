/** Concatenation of a sequence of blocks, where each block lands when all
    blocks have the same length, and the small arithmetic and sequence facts
    those proofs rest on. */
module Blocks {

  function Concat<T>(blocks: seq<seq<T>>): seq<T> {
    if blocks == [] then [] else Concat(blocks[..|blocks| - 1]) + blocks[|blocks| - 1]
  }

  predicate AllLength<T>(blocks: seq<seq<T>>, len: nat) {
    forall i :: 0 <= i < |blocks| ==> |blocks[i]| == len
  }

  lemma MulMonotone(a: int, b: int, c: nat)
    requires a <= b
    ensures a * c <= b * c
  {
  }

  lemma MulNonNegative(a: nat, b: nat)
    ensures 0 <= a * b
  {
  }

  lemma MulAddRight(a: int, b: int, c: int)
    ensures (a + b) * c == a * c + b * c
  {
  }

  lemma MulSwap(a: int, b: int, c: int)
    ensures a * b * c == b * a * c
  {
  }

  lemma MulStrict(a: real, b: real, c: real)
    requires a > 0.0 && b < c
    ensures a * b < a * c
  {
  }

  lemma AppendAssoc<T>(a: seq<T>, b: seq<T>, c: seq<T>)
    ensures (a + b) + c == a + (b + c)
  {
  }

  /** n blocks of length len make n * len elements. */
  lemma {:induction false} ConcatLength<T>(blocks: seq<seq<T>>, len: nat)
    requires AllLength(blocks, len)
    ensures |Concat(blocks)| == |blocks| * len
  {
    if blocks != [] {
      var n := |blocks|;
      ConcatLength(blocks[..n - 1], len);
      assert n * len == (n - 1) * len + len;
    }
  }

  /** Block i sits at positions i*len .. (i+1)*len of the concatenation. */
  lemma ConcatAt<T>(blocks: seq<seq<T>>, len: nat, i: nat)
    requires AllLength(blocks, len) && i < |blocks|
    ensures (i + 1) * len <= |Concat(blocks)|
    ensures Concat(blocks)[i * len .. (i + 1) * len] == blocks[i]
  {
    var before, rest := Concat(blocks[..i]), Concat(blocks[i + 1..]);
    ConcatSplit(blocks, i);
    assert |before| == i * len by {
      assert AllLength(blocks[..i], len);
      ConcatLength(blocks[..i], len);
    }
    MulAddRight(i, 1, len);
    SliceOfFront(before + blocks[i], rest, |before|, |before| + len);
    SliceOfBack(before, blocks[i]);
  }

  /** The concatenation is the blocks before i, block i, then the blocks after it. */
  lemma ConcatSplit<T>(blocks: seq<seq<T>>, i: nat)
    requires i < |blocks|
    ensures Concat(blocks) == (Concat(blocks[..i]) + blocks[i]) + Concat(blocks[i + 1..])
  {
    var front := blocks[..i + 1];
    assert blocks == front + blocks[i + 1..];
    ConcatAppend(front, blocks[i + 1..]);
    assert front[..i] == blocks[..i];
  }

  lemma SliceOfFront<T>(x: seq<T>, y: seq<T>, lo: nat, hi: nat)
    requires lo <= hi <= |x|
    ensures (x + y)[lo..hi] == x[lo..hi]
  {
  }

  lemma SliceOfBack<T>(x: seq<T>, y: seq<T>)
    ensures (x + y)[|x|..|x| + |y|] == y
  {
  }

  /** Block i of `blocks`, each `len` long, sits whole at positions
      1 + i*len .. 1 + i*len + len of `all`, behind one leading element. */
  ghost predicate BlockBehindHead<T>(all: seq<T>, blocks: seq<seq<T>>, len: nat, i: nat)
    requires i < |blocks|
  {
    0 <= i * len && i * len + len < |all| && all[1 + i * len .. 1 + i * len + len] == blocks[i]
  }

  /** Behind one leading element, block i sits at positions 1 + i*len .. 1 + i*len + len. */
  lemma BlockAfterHead<T>(head: T, blocks: seq<seq<T>>, len: nat, i: nat)
    requires AllLength(blocks, len) && i < |blocks|
    ensures |[head] + Concat(blocks)| == 1 + |blocks| * len
    ensures BlockBehindHead([head] + Concat(blocks), blocks, len, i)
  {
    ConcatLength(blocks, len);
    ConcatAt(blocks, len, i);
    MulNonNegative(i, len);
    MulAddRight(i, 1, len);
    SliceOfBack([head], Concat(blocks));
    var all := [head] + Concat(blocks);
    assert all[1 + i * len .. 1 + i * len + len] == Concat(blocks)[i * len .. (i + 1) * len];
  }

  /** Concatenation distributes over appending blocks. */
  lemma {:induction false} ConcatAppend<T>(blocks: seq<seq<T>>, more: seq<seq<T>>)
    ensures Concat(blocks + more) == Concat(blocks) + Concat(more)
    decreases |more|
  {
    if more == [] {
      assert blocks + more == blocks;
    } else {
      var k := |more|;
      var all := blocks + more;
      assert all[..|all| - 1] == blocks + more[..k - 1];
      assert all[|all| - 1] == more[k - 1];
      ConcatAppend(blocks, more[..k - 1]);
      assert Concat(all) == (Concat(blocks) + Concat(more[..k - 1])) + more[k - 1];
      assert Concat(more) == Concat(more[..k - 1]) + more[k - 1];
    }
  }

  /** An element is in the concatenation exactly when it is in some block. */
  lemma {:induction false} InConcat<T>(blocks: seq<seq<T>>, x: T)
    ensures x in Concat(blocks) <==> exists i :: 0 <= i < |blocks| && x in blocks[i]
  {
    if blocks != [] {
      var n := |blocks|;
      InConcat(blocks[..n - 1], x);
      if x in Concat(blocks[..n - 1]) {
        var i :| 0 <= i < n - 1 && x in blocks[..n - 1][i];
        assert x in blocks[i];
      }
      if exists i :: 0 <= i < n && x in blocks[i] {
        var i :| 0 <= i < n && x in blocks[i];
        if i < n - 1 {
          assert x in blocks[..n - 1][i];
        }
      }
    }
  }

  /** When x occurs exactly once in every block, it occurs once per block. */
  lemma {:induction false} CountOncePerBlock<T>(blocks: seq<seq<T>>, x: T)
    requires forall i :: 0 <= i < |blocks| ==> multiset(blocks[i])[x] == 1
    ensures multiset(Concat(blocks))[x] == |blocks|
  {
    if blocks != [] {
      var n := |blocks|;
      CountOncePerBlock(blocks[..n - 1], x);
      assert multiset(Concat(blocks)) == multiset(Concat(blocks[..n - 1])) + multiset(blocks[n - 1]);
    }
  }
}

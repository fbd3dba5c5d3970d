/**
 * Sequential vectors (src/vec/impls/seq/bvec2.c): a header holding the local
 * length, the block size and the value array, the insert/add kernels that
 * write into that array, creation with a fresh or a caller-provided array,
 * duplication and reference-counted destruction.
 *
 * Scalars are `real`. The range checks are those of the debug build.
 */
module SeqVector {
  import opened Optional

  /** How supplied values are combined with the entries they target. */
  datatype InsertMode = InsertValues | AddValues

  /** Outcome of comparing a communicator with the self communicator. */
  datatype CommRelation = Ident | Congruent | Similar | Unequal

  datatype VecError =
    | ArgOutOfRange   // an index outside [0, n)
    | ArgWrong        // a communicator other than the self communicator

  // ---------------------------------------------------------------------
  // Point-wise kernel, as a specification
  // ---------------------------------------------------------------------

  predicate InRange(ix: seq<int>, n: int) {
    forall i :: 0 <= i < |ix| ==> 0 <= ix[i] < n
  }

  /** The position of the first index outside [0, n), or |ix| when there is none. */
  function FirstOutOfRange(ix: seq<int>, n: int): (k: nat)
    ensures k <= |ix|
    ensures forall i :: 0 <= i < k ==> 0 <= ix[i] < n
    ensures k < |ix| ==> !(0 <= ix[k] < n)
    decreases |ix|
  {
    if |ix| == 0 then 0
    else if !(0 <= ix[0] < n) then 0
    else
      var k := FirstOutOfRange(ix[1..], n);
      k + 1
  }

  /** The scan stops at i when every index before i is in range and ix[i] is not (or i is the end). */
  lemma FirstOutOfRangeAt(ix: seq<int>, n: int, i: nat)
    requires i <= |ix| && InRange(ix[..i], n)
    requires i < |ix| ==> !(0 <= ix[i] < n)
    ensures FirstOutOfRange(ix, n) == i
  {
  }

  /** One write of the kernel: s[q] = v (insert) or s[q] += v (add). */
  function Write(mode: InsertMode, s: seq<real>, q: int, v: real): (r: seq<real>)
    requires 0 <= q < |s|
    ensures |r| == |s|
  {
    s[q := if mode == InsertValues then v else s[q] + v]
  }

  /**
   * The entries `s` after `s[ix[i]] = y[i]` (insert) or `s[ix[i]] += y[i]`
   * (add) for i = 0, 1, ..., |ix| - 1, in that order.
   */
  function Apply(mode: InsertMode, s: seq<real>, ix: seq<int>, y: seq<real>): (r: seq<real>)
    requires |ix| <= |y| && InRange(ix, |s|)
    ensures |r| == |s|
    decreases |ix|
  {
    if |ix| == 0 then s
    else
      var k := |ix| - 1;
      assert InRange(ix[..k], |s|) by {
        forall i | 0 <= i < k ensures 0 <= ix[..k][i] < |s| { assert ix[..k][i] == ix[i]; }
      }
      var prev := Apply(mode, s, ix[..k], y);
      Write(mode, prev, ix[k], y[k])
  }

  /** The position of the last write aimed at `p`, or -1 when none is. */
  function LastWrite(ix: seq<int>, p: int): (j: int)
    ensures -1 <= j < |ix|
    ensures 0 <= j ==> ix[j] == p
    ensures forall i :: j < i < |ix| ==> ix[i] != p
    decreases |ix|
  {
    if |ix| == 0 then -1
    else if ix[|ix| - 1] == p then |ix| - 1
    else LastWrite(ix[..|ix| - 1], p)
  }

  /** The sum of every `y[i]` whose index `ix[i]` is `p`. */
  function Contribution(ix: seq<int>, y: seq<real>, p: int): real
    requires |ix| <= |y|
    decreases |ix|
  {
    if |ix| == 0 then 0.0
    else
      var k := |ix| - 1;
      Contribution(ix[..k], y, p) + (if ix[k] == p then y[k] else 0.0)
  }

  /** Insert mode: every target holds the value of its last write; untouched entries keep theirs. */
  lemma {:induction false} InsertLastWins(s: seq<real>, ix: seq<int>, y: seq<real>, p: int)
    requires |ix| <= |y| && InRange(ix, |s|) && 0 <= p < |s|
    ensures var j := LastWrite(ix, p);
      Apply(InsertValues, s, ix, y)[p] == if j < 0 then s[p] else y[j]
    decreases |ix|
  {
    if |ix| > 0 {
      var k := |ix| - 1;
      assert InRange(ix[..k], |s|) by {
        forall i | 0 <= i < k ensures 0 <= ix[..k][i] < |s| { assert ix[..k][i] == ix[i]; }
      }
      InsertLastWins(s, ix[..k], y, p);
    }
  }

  /** Add mode: every entry ends as its old value plus everything aimed at it. */
  lemma {:induction false} AddAccumulates(s: seq<real>, ix: seq<int>, y: seq<real>, p: int)
    requires |ix| <= |y| && InRange(ix, |s|) && 0 <= p < |s|
    ensures Apply(AddValues, s, ix, y)[p] == s[p] + Contribution(ix, y, p)
    decreases |ix|
  {
    if |ix| > 0 {
      var k := |ix| - 1;
      assert InRange(ix[..k], |s|) by {
        forall i | 0 <= i < k ensures 0 <= ix[..k][i] < |s| { assert ix[..k][i] == ix[i]; }
      }
      AddAccumulates(s, ix[..k], y, p);
    }
  }

  /** An entry that no index targets receives nothing in add mode. */
  lemma {:induction false} ContributionUntouched(ix: seq<int>, y: seq<real>, p: int)
    requires |ix| <= |y|
    requires forall i :: 0 <= i < |ix| ==> ix[i] != p
    ensures Contribution(ix, y, p) == 0.0
    decreases |ix|
  {
    if |ix| > 0 {
      ContributionUntouched(ix[..|ix| - 1], y, p);
    }
  }

  // ---------------------------------------------------------------------
  // Blocked kernel, as the point-wise kernel on expanded indices
  // ---------------------------------------------------------------------

  /** The positions bs*b, bs*b + 1, ..., bs*b + bs - 1 of block `b`. */
  function Block(b: int, bs: nat): (r: seq<int>)
    ensures |r| == bs
    ensures forall j :: 0 <= j < bs ==> r[j] == bs * b + j
  {
    seq(bs, j => bs * b + j)
  }

  /** The point positions written by blocked indices `ix`, block after block. */
  function Expand(ix: seq<int>, bs: nat): (e: seq<int>)
    decreases |ix|
  {
    if |ix| == 0 then [] else Expand(ix[..|ix| - 1], bs) + Block(ix[|ix| - 1], bs)
  }

  /** Blocked index i, offset j, is the (i*bs + j)-th point write, aimed at bs*ix[i] + j. */
  lemma {:induction false} ExpandAt(ix: seq<int>, bs: nat, i: nat, j: nat)
    requires i < |ix| && j < bs
    ensures |Expand(ix, bs)| == |ix| * bs
    ensures i * bs + j < |ix| * bs
    ensures Expand(ix, bs)[i * bs + j] == bs * ix[i] + j
    decreases |ix|
  {
    var k := |ix| - 1;
    ExpandLength(ix[..k], bs);
    assert |ix| * bs == k * bs + bs;
    if i < k {
      ExpandAt(ix[..k], bs, i, j);
      assert i * bs + j < k * bs;
    } else {
      assert i * bs + j == k * bs + j;
    }
  }

  lemma {:induction false} ExpandLength(ix: seq<int>, bs: nat)
    ensures |Expand(ix, bs)| == |ix| * bs
    decreases |ix|
  {
    if |ix| > 0 {
      ExpandLength(ix[..|ix| - 1], bs);
      assert |ix| * bs == (|ix| - 1) * bs + bs;
    }
  }

  /** The range test of the debug build, as written: only the first entry of the block. */
  predicate BlockStartInRange(start: int, n: int) {
    0 <= start < n
  }

  /** The range test the blocked kernel needs: the whole block lies in [0, n). */
  predicate BlockInRange(start: int, bs: nat, n: int) {
    0 <= start < n && start + bs <= n
  }

  /** As written, a block that starts in range but ends past the vector passes the test. */
  lemma BlockStartTestAdmitsOverrun()
    ensures BlockStartInRange(2 * 1, 3) && !BlockInRange(2 * 1, 2, 3)
    ensures Block(1, 2)[1] == 3
  {
  }

  /** When the block size divides the length, the two tests agree. */
  lemma {:induction false} BlockTestsAgreeWhenDivisible(b: int, bs: nat, n: nat)
    requires bs > 0 && n % bs == 0
    ensures BlockStartInRange(bs * b, n) <==> BlockInRange(bs * b, bs, n)
  {
    if BlockStartInRange(bs * b, n) {
      var q := n / bs;
      assert n == bs * q;
      LessByMultiple(bs, b, q);
      MultiplyMonotone(bs, b + 1, q);
      assert bs * (b + 1) == bs * b + bs;
    }
  }

  lemma MultiplyMonotone(c: nat, a: int, b: int)
    requires a <= b
    ensures c * a <= c * b
  {
  }

  lemma LessByMultiple(c: nat, a: int, b: int)
    requires c * a < c * b
    ensures a < b
  {
    if a >= b {
      MultiplyMonotone(c, b, a);
      assert false;
    }
  }

  /** The position of the first block that fails the corrected test, or |ix|. */
  function FirstBadBlock(ix: seq<int>, bs: nat, n: int): (k: nat)
    ensures k <= |ix|
    ensures forall i :: 0 <= i < k ==> BlockInRange(bs * ix[i], bs, n)
    ensures k < |ix| ==> !BlockInRange(bs * ix[k], bs, n)
    decreases |ix|
  {
    if |ix| == 0 then 0
    else if !BlockInRange(bs * ix[0], bs, n) then 0
    else
      var k := FirstBadBlock(ix[1..], bs, n);
      assert forall i :: 0 < i <= k ==> BlockInRange(bs * ix[i], bs, n) by {
        forall i | 0 < i <= k ensures BlockInRange(bs * ix[i], bs, n) {
          assert ix[i] == ix[1..][i - 1];
        }
      }
      k + 1
  }

  /** The position where the blocked loop as written stops: the first block whose start fails the start-only test, or |ix|. */
  function FirstBadStart(ix: seq<int>, bs: nat, n: int): (k: nat)
    ensures k <= |ix|
    ensures forall i :: 0 <= i < k ==> BlockStartInRange(bs * ix[i], n)
    ensures k < |ix| ==> !BlockStartInRange(bs * ix[k], n)
    decreases |ix|
  {
    if |ix| == 0 then 0
    else if !BlockStartInRange(bs * ix[0], n) then 0
    else
      var k := FirstBadStart(ix[1..], bs, n);
      assert forall i :: 0 < i <= k ==> BlockStartInRange(bs * ix[i], n) by {
        forall i | 0 < i <= k ensures BlockStartInRange(bs * ix[i], n) {
          assert ix[i] == ix[1..][i - 1];
        }
      }
      k + 1
  }

  /** When the block size divides the length, the loop as written and the corrected one stop at the same block. */
  lemma {:induction false} StopsAgreeWhenDivisible(ix: seq<int>, bs: nat, n: nat)
    requires bs > 0 && n % bs == 0
    ensures FirstBadStart(ix, bs, n) == FirstBadBlock(ix, bs, n)
    decreases |ix|
  {
    if |ix| > 0 {
      BlockTestsAgreeWhenDivisible(ix[0], bs, n);
      StopsAgreeWhenDivisible(ix[1..], bs, n);
    }
  }

  /** One more block of the blocked kernel extends the expanded writes by that block. */
  lemma ExpandStep(ix: seq<int>, bs: nat, n: int, i: nat)
    requires i < |ix|
    requires forall b :: 0 <= b <= i ==> BlockInRange(bs * ix[b], bs, n)
    ensures Expand(ix[..i + 1], bs) == Expand(ix[..i], bs) + Block(ix[i], bs)
    ensures |Expand(ix[..i], bs)| == i * bs
    ensures |Expand(ix[..i + 1], bs)| == (i + 1) * bs == i * bs + bs
    ensures (i + 1) * bs <= |ix| * bs
    ensures InRange(Expand(ix[..i + 1], bs), n)
  {
    assert ix[..i + 1][..i] == ix[..i];
    ExpandLength(ix[..i], bs);
    ExpandLength(ix[..i + 1], bs);
    assert (i + 1) * bs == i * bs + bs;
    MultiplyMonotone(bs, i + 1, |ix|);
    ExpandInRange(ix[..i + 1], bs, n);
  }

  /** Blocks that pass the corrected test only write inside [0, n). */
  lemma {:induction false} ExpandInRange(ix: seq<int>, bs: nat, n: int)
    requires forall i :: 0 <= i < |ix| ==> BlockInRange(bs * ix[i], bs, n)
    ensures InRange(Expand(ix, bs), n)
    decreases |ix|
  {
    if |ix| > 0 {
      ExpandInRange(ix[..|ix| - 1], bs, n);
    }
  }

  /** One more write extends the point-wise kernel by a single update. */
  lemma ApplyExtend(mode: InsertMode, s: seq<real>, e: seq<int>, q: int, y: seq<real>, prev: seq<real>)
    requires |e| < |y| && InRange(e, |s|) && 0 <= q < |s|
    requires prev == Apply(mode, s, e, y)
    ensures InRange(e + [q], |s|)
    ensures Apply(mode, s, e + [q], y) == Write(mode, prev, q, y[|e|])
  {
    assert (e + [q])[..|e|] == e;
    assert (e + [q])[|e|] == q;
  }

  /** The writes of a block, taken one offset further. */
  lemma BlockPrefixStep(done: seq<int>, b: int, bs: nat, j: nat, n: int)
    requires j < bs && InRange(done + Block(b, bs), n)
    ensures done + Block(b, bs)[..j + 1] == (done + Block(b, bs)[..j]) + [bs * b + j]
    ensures InRange(done + Block(b, bs)[..j + 1], n) && 0 <= bs * b + j < n
  {
    var e := done + Block(b, bs);
    assert e[|done| + j] == bs * b + j;
    var e' := done + Block(b, bs)[..j + 1];
    assert Block(b, bs)[..j + 1] == Block(b, bs)[..j] + [bs * b + j];
    forall p | 0 <= p < |e'|
      ensures 0 <= e'[p] < n
    {
      assert e'[p] == e[p];
    }
  }

  /** Writing offset j of block b is one more step of the point-wise kernel. */
  lemma BlockApplyStep(mode: InsertMode, s0: seq<real>, done: seq<int>, b: int, bs: nat, j: nat, y: seq<real>,
                       cur: seq<real>)
    requires j < bs && |done| + bs <= |y|
    requires InRange(done + Block(b, bs), |s0|) && InRange(done + Block(b, bs)[..j], |s0|)
    requires cur == Apply(mode, s0, done + Block(b, bs)[..j], y)
    ensures InRange(done + Block(b, bs)[..j + 1], |s0|) && 0 <= bs * b + j < |s0|
    ensures Apply(mode, s0, done + Block(b, bs)[..j + 1], y) == Write(mode, cur, bs * b + j, y[|done| + j])
  {
    var e := done + Block(b, bs)[..j];
    var q := bs * b + j;
    BlockPrefixStep(done, b, bs, j, |s0|);
    assert |e| == |done| + j;
    ApplyExtend(mode, s0, e, q, y, cur);
    calc {
      Apply(mode, s0, done + Block(b, bs)[..j + 1], y);
      { assert done + Block(b, bs)[..j + 1] == e + [q]; }
      Apply(mode, s0, e + [q], y);
    }
  }

  /** a[q] := v, for a position q inside the first n entries. */
  method WriteEntry(a: array<real>, n: nat, q: int, v: real)
    requires 0 <= q < n <= a.Length
    modifies a
    ensures a[..n] == old(a[..n])[q := v]
    ensures a[n..] == old(a[n..])
  {
    a[q] := v;
  }

  /** One block of the blocked kernel: bs values from y[off..] to a[start..start + bs). */
  method WriteBlock(a: array<real>, n: nat, start: int, bs: nat, off: nat, y: seq<real>, mode: InsertMode,
                    ghost s0: seq<real>, ghost done: seq<int>, ghost b: int)
    requires n <= a.Length && |s0| == n
    requires start == bs * b && BlockInRange(start, bs, n)
    requires |done| == off && off + bs <= |y|
    requires InRange(done, n) && InRange(done + Block(b, bs), n)
    requires a[..n] == Apply(mode, s0, done, y)
    modifies a
    ensures a[..n] == Apply(mode, s0, done + Block(b, bs), y)
    ensures a[n..] == old(a[n..])
  {
    var j := 0;
    assert done + Block(b, bs)[..0] == done;
    while j < bs
      invariant 0 <= j <= bs
      invariant InRange(done + Block(b, bs)[..j], n)
      invariant a[..n] == Apply(mode, s0, done + Block(b, bs)[..j], y)
      invariant a[n..] == old(a[n..])
    {
      BlockApplyStep(mode, s0, done, b, bs, j, y, a[..n]);
      var v := if mode == InsertValues then y[off + j] else a[start + j] + y[off + j];
      WriteEntry(a, n, start + j, v);
      j := j + 1;
    }
    assert Block(b, bs)[..j] == Block(b, bs);
  }

  // ---------------------------------------------------------------------
  // The vector header
  // ---------------------------------------------------------------------

  class SeqVec {
    var n: nat                  // local length
    var globalN: nat            // global length
    var bs: nat                 // block size
    var comm: CommRelation      // how its communicator compares with the self communicator
    var data: array?<real>      // the value array (null until one is placed)
    var ownsData: bool          // the array was allocated by the vector itself
    var refct: int              // reference count
    var released: bool          // storage has been released by Destroy

    ghost predicate Valid()
      reads this
    {
      && comm != Unequal
      && globalN == n
      && (data != null ==> n <= data.Length)
      && (ownsData ==> data != null)
    }

    /** The entries of the vector. */
    ghost function Contents(): (s: seq<real>)
      requires Valid() && data != null
      reads this, data
      ensures |s| == n
    {
      data[..n]
    }

    /** The header as filled in for a new vector over `arr`, reference count one. */
    constructor Header(comm: CommRelation, n: nat, arr: array?<real>)
      requires comm != Unequal
      requires arr != null ==> n <= arr.Length
      ensures Valid()
      ensures this.comm == comm && this.n == n && globalN == n && bs == 0
      ensures data == arr && !ownsData && refct == 1 && !released
    {
      this.comm := comm;
      this.n := n;
      globalN := n;
      bs := 0;
      data := arr;
      ownsData := false;
      refct := 1;
      released := false;
    }

    /** A vector of length `n` over the caller's array, which it does not own. */
    static method CreateSeqWithArray(comm: CommRelation, n: nat, arr: array?<real>)
      returns (v: SeqVec?, err: Option<VecError>)
      requires arr != null ==> n <= arr.Length
      ensures err == (if comm == Unequal then Some(ArgWrong) else None)
      ensures err.Some? ==> v == null
      ensures err.None? ==> v != null && fresh(v) && v.Valid() && v.comm == comm
      ensures err.None? ==> v.n == n && v.globalN == n && v.bs == 0 && v.data == arr && !v.ownsData
      ensures err.None? ==> v.refct == 1 && !v.released
    {
      v := null;
      if comm == Unequal {
        return null, Some(ArgWrong);
      }
      v := new SeqVec.Header(comm, n, arr);
      err := None;
    }

    /** A vector of length `n` over a fresh, all-zero array that it owns. */
    static method CreateSeq(comm: CommRelation, n: nat) returns (v: SeqVec?, err: Option<VecError>)
      ensures err == (if comm == Unequal then Some(ArgWrong) else None)
      ensures err.Some? ==> v == null
      ensures err.None? ==> v != null && fresh(v) && v.Valid() && v.comm == comm
      ensures err.None? ==> v.n == n && v.globalN == n && v.bs == 0 && v.ownsData
      ensures err.None? ==> fresh(v.data) && v.data[..] == seq(n, _ => 0.0)
      ensures err.None? ==> v.refct == 1 && !v.released
    {
      var arr := new real[n](_ => 0.0);
      v, err := CreateSeqWithArray(comm, n, arr);
      if err.None? {
        v.ownsData := true;
      }
    }

    /** The creation entry point given a local and a global size: the larger of the two. */
    static method CreateSeqStub(comm: CommRelation, n: int, bigN: int) returns (v: SeqVec?, err: Option<VecError>)
      requires n >= 0 || bigN >= 0
      ensures err == (if comm == Unequal then Some(ArgWrong) else None)
      ensures err.Some? ==> v == null
      ensures err.None? ==> v != null && fresh(v) && v.Valid() && v.comm == comm
      ensures err.None? ==> v.n == (if n >= bigN then n else bigN) && v.globalN == v.n && v.bs == 0 && v.ownsData
      ensures err.None? ==> fresh(v.data) && v.data[..] == seq(v.n, _ => 0.0)
      ensures err.None? ==> v.refct == 1 && !v.released
    {
      var len: nat := if n >= bigN then n else bigN;
      v, err := CreateSeq(comm, len);
    }

    /** The trivial ownership range of a sequential vector: all of [0, n). */
    method GetOwnershipRange() returns (low: int, high: int)
      requires Valid()
      ensures low == 0 && high == n
    {
      low, high := 0, n;
    }

    /** A new vector of the same length and block size, with its own zeroed array. */
    method Duplicate() returns (v: SeqVec)
      requires Valid() && !released
      ensures fresh(v) && v.Valid() && v.comm == comm
      ensures v.n == n && v.globalN == globalN && v.bs == bs
      ensures v.ownsData && fresh(v.data) && v.data[..] == seq(n, _ => 0.0)
      ensures v.refct == 1 && !v.released
    {
      var w, err := CreateSeq(comm, n);
      w.bs := bs;
      v := w;
    }

    /**
     * Drops one reference; storage is released only when none remain, and
     * only an array the vector allocated is freed.
     */
    method Destroy() returns (freed: bool)
      requires Valid() && !released
      modifies this`refct, this`released
      ensures refct == old(refct) - 1
      ensures released <==> refct <= 0
      ensures freed <==> released && ownsData
    {
      refct := refct - 1;
      if refct > 0 {
        return false;
      }
      released := true;
      freed := ownsData;
    }

    /**
     * Writes (insert) or accumulates (add) `y[i]` at `ix[i]` for each i in
     * order. An index outside [0, n) stops the loop with an error; the
     * writes before it stay done.
     */
    method SetValues(ix: seq<int>, y: seq<real>, mode: InsertMode) returns (err: Option<VecError>)
      requires Valid() && !released && data != null && |ix| <= |y|
      modifies data
      ensures var k := FirstOutOfRange(ix, n);
        && err == (if k < |ix| then Some(ArgOutOfRange) else None)
        && Contents() == Apply(mode, old(Contents()), ix[..k], y)
      ensures data[n..] == old(data[n..])
    {
      ghost var s0 := Contents();
      var i := 0;
      while i < |ix|
        invariant 0 <= i <= |ix|
        invariant InRange(ix[..i], n)
        invariant Contents() == Apply(mode, s0, ix[..i], y)
        invariant data[n..] == old(data[n..])
      {
        if !(0 <= ix[i] < n) {
          FirstOutOfRangeAt(ix, n, i);
          return Some(ArgOutOfRange);
        }
        ApplyExtend(mode, s0, ix[..i], ix[i], y, Contents());
        assert ix[..i + 1] == ix[..i] + [ix[i]];
        var v := if mode == InsertValues then y[i] else data[ix[i]] + y[i];
        WriteEntry(data, n, ix[i], v);
        i := i + 1;
      }
      assert ix[..i] == ix;
      FirstOutOfRangeAt(ix, n, i);
      err := None;
    }

    /**
     * The blocked form: for each i, the bs values y[i*bs .. i*bs + bs) go to
     * positions bs*ix[i] .. bs*ix[i] + bs. A block that does not lie inside
     * [0, n) stops the loop with an error.
     */
    method SetValuesBlocked(ix: seq<int>, y: seq<real>, mode: InsertMode) returns (err: Option<VecError>)
      requires Valid() && !released && data != null && |ix| * bs <= |y|
      modifies data
      ensures var k := FirstBadBlock(ix, bs, n);
        && err == (if k < |ix| then Some(ArgOutOfRange) else None)
        && |Expand(ix[..k], bs)| <= |y|
        && InRange(Expand(ix[..k], bs), n)
        && Contents() == Apply(mode, old(Contents()), Expand(ix[..k], bs), y)
      ensures data[n..] == old(data[n..])
    {
      ghost var s0 := Contents();
      var i := 0;
      while i < |ix|
        invariant 0 <= i <= |ix|
        invariant forall b :: 0 <= b < i ==> BlockInRange(bs * ix[b], bs, n)
        invariant InRange(Expand(ix[..i], bs), n)
        invariant |Expand(ix[..i], bs)| == i * bs <= |ix| * bs
        invariant Contents() == Apply(mode, s0, Expand(ix[..i], bs), y)
        invariant data[n..] == old(data[n..])
      {
        var start := bs * ix[i];
        if !BlockInRange(start, bs, n) {
          assert FirstBadBlock(ix, bs, n) == i;
          return Some(ArgOutOfRange);
        }
        ghost var done := Expand(ix[..i], bs);
        ExpandStep(ix, bs, n, i);
        WriteBlock(data, n, start, bs, i * bs, y, mode, s0, done, ix[i]);
        i := i + 1;
      }
      assert ix[..i] == ix;
      err := None;
    }
  }
}

/**
 * The vector packer (src/dm/da/utils/pack.c): an append-only list of links,
 * each a redundant array (stored only on rank 0) or a distributed-array (DA)
 * block, that is frozen by creating the packed global vector. The freeze
 * gives every link the offset `rstart` of its segment in this rank's part
 * of the packed vector; gather copies each link's values into its segment
 * and scatter copies them back out.
 *
 * The rank is fixed at creation. The communication and the DA transfers
 * are not modelled: what they deliver is passed in as `received` (the
 * broadcast from rank 0, or the DA global-to-local result) and `produced`
 * (the DA local-to-global result).
 */
module VecPacking {
  import opened Optional

  datatype LinkKind = ArrayLink | DALink | VecScatterLink

  /** One packed object: its kind, its local length and its offset in the packed vector. */
  datatype Link = Link(kind: LinkKind, n: nat, rstart: nat)

  datatype PackError =
    | AlreadyFrozen     // adding after the global vector was created
    | NotFrozen         // scatter or gather before the global vector was created
    | UnsupportedLink   // a link kind the packer cannot handle

  // ---------------------------------------------------------------------
  // Layout
  // ---------------------------------------------------------------------

  /** Whether a link occupies entries of this rank's part: arrays live only on rank 0. */
  predicate Counted(l: Link, rank: nat) {
    rank == 0 || l.kind != ArrayLink
  }

  /** The number of entries a link occupies on this rank. */
  function Extent(l: Link, rank: nat): nat {
    if Counted(l, rank) then l.n else 0
  }

  /** The number of entries the links occupy on this rank. */
  function TotalExtent(links: seq<Link>, rank: nat): nat
    decreases |links|
  {
    if |links| == 0 then 0
    else TotalExtent(links[..|links| - 1], rank) + Extent(links[|links| - 1], rank)
  }

  /** The number of links of a kind. */
  function CountKind(links: seq<Link>, kind: LinkKind): nat
    decreases |links|
  {
    if |links| == 0 then 0
    else CountKind(links[..|links| - 1], kind) + (if links[|links| - 1].kind == kind then 1 else 0)
  }

  /** Two link lists that differ at most in their offsets. */
  predicate SameShape(a: seq<Link>, b: seq<Link>) {
    |a| == |b| && forall k :: 0 <= k < |a| ==> a[k].kind == b[k].kind && a[k].n == b[k].n
  }

  /** The layout the freeze assigns: each link starts where the ones before it end. */
  predicate Laid(links: seq<Link>, rank: nat)
    decreases |links|
  {
    |links| == 0 ||
    (Laid(links[..|links| - 1], rank) && links[|links| - 1].rstart == TotalExtent(links[..|links| - 1], rank))
  }

  /** Under the freeze layout, link k starts at the extent of the links before it. */
  lemma {:induction false} LaidAt(links: seq<Link>, rank: nat, k: nat)
    requires Laid(links, rank) && k < |links|
    ensures links[k].rstart == TotalExtent(links[..k], rank)
    decreases |links|
  {
    var m := |links| - 1;
    if k < m {
      LaidAt(links[..m], rank, k);
      assert links[..m][..k] == links[..k];
    }
  }

  /** Offsets equal to the preceding extents make a freeze layout. */
  lemma {:induction false} LaidFromStarts(links: seq<Link>, rank: nat)
    requires forall k :: 0 <= k < |links| ==> links[k].rstart == TotalExtent(links[..k], rank)
    ensures Laid(links, rank)
    decreases |links|
  {
    if |links| > 0 {
      var m := |links| - 1;
      forall k | 0 <= k < m ensures links[..m][k].rstart == TotalExtent(links[..m][..k], rank) {
        assert links[..m][..k] == links[..k];
      }
      LaidFromStarts(links[..m], rank);
    }
  }

  /** Every link's segment lies inside a vector of length `len`. */
  predicate Fits(links: seq<Link>, rank: nat, len: nat) {
    forall k :: 0 <= k < |links| ==> links[k].rstart + Extent(links[k], rank) <= len
  }

  /** No two segments overlap, and they come in list order. */
  predicate Disjoint(links: seq<Link>, rank: nat) {
    forall i, j :: 0 <= i < j < |links| ==> links[i].rstart + Extent(links[i], rank) <= links[j].rstart
  }

  /** Offsets do not matter to the extents. */
  lemma {:induction false} SameShapeSameExtent(a: seq<Link>, b: seq<Link>, rank: nat)
    requires SameShape(a, b)
    ensures TotalExtent(a, rank) == TotalExtent(b, rank)
    ensures CountKind(a, ArrayLink) == CountKind(b, ArrayLink)
    ensures CountKind(a, DALink) == CountKind(b, DALink)
    decreases |a|
  {
    if |a| > 0 {
      SameShapeSameExtent(a[..|a| - 1], b[..|b| - 1], rank);
    }
  }

  /** Extents only grow along the list. */
  lemma {:induction false} TotalExtentMonotone(links: seq<Link>, rank: nat, i: nat, j: nat)
    requires i <= j <= |links|
    ensures TotalExtent(links[..i], rank) <= TotalExtent(links[..j], rank)
    decreases j - i
  {
    if i < j {
      TotalExtentMonotone(links, rank, i, j - 1);
      assert links[..j][..j - 1] == links[..j - 1];
    }
  }

  /** The next link starts exactly where this one ends. */
  lemma Contiguous(links: seq<Link>, rank: nat, k: nat)
    requires Laid(links, rank) && k + 1 < |links|
    ensures links[k + 1].rstart == links[k].rstart + Extent(links[k], rank)
  {
    LaidAt(links, rank, k);
    LaidAt(links, rank, k + 1);
    assert links[..k + 1][..k] == links[..k];
  }

  /** The freeze layout has disjoint segments, all inside [0, TotalExtent). */
  lemma {:induction false} LaidIsDisjoint(links: seq<Link>, rank: nat)
    requires Laid(links, rank)
    ensures Disjoint(links, rank)
    ensures Fits(links, rank, TotalExtent(links, rank))
  {
    forall i, j | 0 <= i < j < |links|
      ensures links[i].rstart + Extent(links[i], rank) <= links[j].rstart
    {
      LaidAt(links, rank, i);
      LaidAt(links, rank, j);
      assert links[..i + 1][..i] == links[..i];
      TotalExtentMonotone(links, rank, i + 1, j);
    }
    forall k | 0 <= k < |links|
      ensures links[k].rstart + Extent(links[k], rank) <= TotalExtent(links, rank)
    {
      LaidAt(links, rank, k);
      assert links[..k + 1][..k] == links[..k];
      TotalExtentMonotone(links, rank, k + 1, |links|);
      assert links[..|links|] == links;
    }
  }

  /** The freeze layout leaves no gap: every entry of [0, total extent) lies in some counted link's segment. */
  lemma {:induction false} LaidCovers(links: seq<Link>, rank: nat, p: int)
    requires Laid(links, rank) && 0 <= p < TotalExtent(links, rank)
    ensures exists k :: 0 <= k < |links| && Counted(links[k], rank) && links[k].rstart <= p < links[k].rstart + links[k].n
    decreases |links|
  {
    var m := |links| - 1;
    var front := links[..m];
    if p < TotalExtent(front, rank) {
      LaidCovers(front, rank, p);
      var k :| 0 <= k < |front| && Counted(front[k], rank) && front[k].rstart <= p < front[k].rstart + front[k].n;
      assert links[k] == front[k];
    } else {
      assert Counted(links[m], rank) && links[m].rstart <= p < links[m].rstart + links[m].n;
    }
  }

  /** The position of the first link the packer cannot handle, or |links|. */
  function FirstUnsupported(links: seq<Link>): (k: nat)
    ensures k <= |links|
    ensures forall i :: 0 <= i < k ==> links[i].kind != VecScatterLink
    ensures k < |links| ==> links[k].kind == VecScatterLink
    decreases |links|
  {
    if |links| == 0 then 0
    else if links[0].kind == VecScatterLink then 0
    else FirstUnsupported(links[1..]) + 1
  }

  // ---------------------------------------------------------------------
  // Gather and scatter, as specifications
  // ---------------------------------------------------------------------

  /** `g` with the entries at [at, at + |d|) replaced by `d`; entries beyond the end of `g` are dropped. */
  function Place(g: seq<real>, at: int, d: seq<real>): (r: seq<real>)
    ensures |r| == |g|
    ensures forall p :: 0 <= p < |g| ==> r[p] == if at <= p < at + |d| then d[p - at] else g[p]
  {
    seq(|g|, p requires 0 <= p < |g| => if at <= p < at + |d| then d[p - at] else g[p])
  }

  /** What gathering copies into the link's segment is what is found there afterwards. */
  lemma PlaceSegment(g: seq<real>, at: nat, d: seq<real>)
    requires at + |d| <= |g|
    ensures Place(g, at, d)[at..at + |d|] == d
  {
    var seg := Place(g, at, d)[at..at + |d|];
    assert forall i :: 0 <= i < |d| ==> seg[i] == d[i];
  }

  /** Placing a segment's own values back changes nothing. */
  lemma PlaceOwnSegment(g: seq<real>, at: nat, m: nat)
    requires at + m <= |g|
    ensures Place(g, at, g[at..at + m]) == g
  {
    var r := Place(g, at, g[at..at + m]);
    assert forall p :: 0 <= p < |g| ==> r[p] == g[p];
  }

  /** A segment that ends before `at` is untouched by a placement at `at`. */
  lemma PlaceKeepsEarlier(g: seq<real>, at: nat, d: seq<real>, s: nat, m: nat)
    requires s + m <= at && s + m <= |g|
    ensures Place(g, at, d)[s..s + m] == g[s..s + m]
  {
    var before, after := g[s..s + m], Place(g, at, d)[s..s + m];
    assert forall i :: 0 <= i < m ==> after[i] == before[i];
  }

  /** Every counted link among the first m has an input of its own length. */
  predicate Sized(links: seq<Link>, inputs: seq<seq<real>>, rank: nat, m: nat) {
    && m <= |links| <= |inputs|
    && forall k :: 0 <= k < m && Counted(links[k], rank) ==> |inputs[k]| == links[k].n
  }

  /** The inputs fit the links they are gathered into. */
  predicate GatherReady(g: seq<real>, links: seq<Link>, inputs: seq<seq<real>>, rank: nat) {
    Fits(links, rank, |g|) && Sized(links, inputs, rank, |links|)
  }

  /**
   * The packed vector after copying inputs[k] into the segment of every
   * counted link k among the first i links, in order.
   */
  function Gathered(g: seq<real>, links: seq<Link>, inputs: seq<seq<real>>, rank: nat, i: nat): (r: seq<real>)
    requires i <= |links| <= |inputs|
    ensures |r| == |g|
  {
    if i == 0 then g
    else
      var prev := Gathered(g, links, inputs, rank, i - 1);
      if Counted(links[i - 1], rank) then Place(prev, links[i - 1].rstart, inputs[i - 1]) else prev
  }

  /** Gathering link i - 1 puts its input into its segment. */
  lemma SegmentOfLast(g: seq<real>, links: seq<Link>, inputs: seq<seq<real>>, rank: nat, i: nat)
    requires Fits(links, rank, |g|) && Sized(links, inputs, rank, i)
    requires 0 < i && Counted(links[i - 1], rank)
    ensures links[i - 1].rstart + links[i - 1].n <= |g|
    ensures Gathered(g, links, inputs, rank, i)[links[i - 1].rstart..links[i - 1].rstart + links[i - 1].n] == inputs[i - 1]
  {
    PlaceSegment(Gathered(g, links, inputs, rank, i - 1), links[i - 1].rstart, inputs[i - 1]);
  }

  /** Gathering link i - 1 leaves the segment of an earlier link k alone. */
  lemma SegmentKept(g: seq<real>, links: seq<Link>, inputs: seq<seq<real>>, rank: nat, k: nat, i: nat)
    requires |links| <= |inputs| && Disjoint(links, rank)
    requires k < i - 1 && i <= |links| && Counted(links[k], rank)
    requires links[k].rstart + links[k].n <= |g|
    ensures Gathered(g, links, inputs, rank, i)[links[k].rstart..links[k].rstart + links[k].n] ==
            Gathered(g, links, inputs, rank, i - 1)[links[k].rstart..links[k].rstart + links[k].n]
  {
    var l := links[i - 1];
    if Counted(l, rank) {
      PlaceKeepsEarlier(Gathered(g, links, inputs, rank, i - 1), l.rstart, inputs[i - 1], links[k].rstart, links[k].n);
    }
  }

  /** The segment of link k after gathering the first i links, k < i. */
  lemma {:induction false} GatheredPrefixSegment(g: seq<real>, links: seq<Link>, inputs: seq<seq<real>>, rank: nat, k: nat, i: nat)
    requires Fits(links, rank, |g|) && Sized(links, inputs, rank, i) && Disjoint(links, rank)
    requires k < i && Counted(links[k], rank)
    ensures links[k].rstart + links[k].n <= |g|
    ensures Gathered(g, links, inputs, rank, i)[links[k].rstart..links[k].rstart + links[k].n] == inputs[k]
    decreases i
  {
    if k == i - 1 {
      SegmentOfLast(g, links, inputs, rank, i);
    } else {
      GatheredPrefixSegment(g, links, inputs, rank, k, i - 1);
      SegmentKept(g, links, inputs, rank, k, i);
    }
  }

  /** Gather then scatter: each counted link's segment holds exactly what was gathered from it. */
  lemma GatheredSegment(g: seq<real>, links: seq<Link>, inputs: seq<seq<real>>, rank: nat, k: nat)
    requires GatherReady(g, links, inputs, rank) && Disjoint(links, rank)
    requires k < |links| && Counted(links[k], rank)
    ensures links[k].rstart + links[k].n <= |g|
    ensures Gathered(g, links, inputs, rank, |links|)[links[k].rstart..links[k].rstart + links[k].n] == inputs[k]
  {
    GatheredPrefixSegment(g, links, inputs, rank, k, |links|);
  }

  /** Entries outside every counted segment keep their values. */
  lemma {:induction false} GatheredOutside(g: seq<real>, links: seq<Link>, inputs: seq<seq<real>>, rank: nat, i: nat, p: int)
    requires Sized(links, inputs, rank, i) && 0 <= p < |g|
    requires forall k :: 0 <= k < i && Counted(links[k], rank) ==>
      !(links[k].rstart <= p < links[k].rstart + links[k].n)
    ensures Gathered(g, links, inputs, rank, i)[p] == g[p]
    decreases i
  {
    if i > 0 {
      GatheredOutside(g, links, inputs, rank, i - 1, p);
    }
  }

  /** Scatter then gather: gathering the values each segment already holds gives back the vector. */
  lemma {:induction false} GatherOwnSegments(g: seq<real>, links: seq<Link>, inputs: seq<seq<real>>, rank: nat, i: nat)
    requires Fits(links, rank, |g|) && i <= |links| <= |inputs|
    requires forall k :: 0 <= k < i && Counted(links[k], rank) ==>
      inputs[k] == g[links[k].rstart..links[k].rstart + links[k].n]
    ensures Gathered(g, links, inputs, rank, i) == g
    decreases i
  {
    if i > 0 {
      GatherOwnSegments(g, links, inputs, rank, i - 1);
      if Counted(links[i - 1], rank) {
        PlaceOwnSegment(g, links[i - 1].rstart, links[i - 1].n);
      }
    }
  }

  /** What scattering leaves in the argument of one (supported) link. */
  function ScatterInto(cur: seq<real>, l: Link, g: seq<real>, recv: seq<real>, rank: nat): (r: seq<real>)
    requires l.kind != VecScatterLink
    requires l.kind == ArrayLink ==> l.n <= |cur| && (if rank == 0 then l.rstart + l.n <= |g| else |recv| == l.n)
    ensures l.kind == ArrayLink ==> |r| == |cur| && r[l.n..] == cur[l.n..]
  {
    if l.kind == ArrayLink then
      (if rank == 0 then g[l.rstart..l.rstart + l.n] else recv) + cur[l.n..]
    else recv
  }

  /** The values gathered from each link: the first n entries of its array, or the DA's contribution. */
  function Sources(links: seq<Link>, arrays: seq<seq<real>>, produced: seq<seq<real>>): (r: seq<seq<real>>)
    requires |arrays| == |links| && |produced| == |links|
    requires forall k :: 0 <= k < |links| && links[k].kind == ArrayLink ==> links[k].n <= |arrays[k]|
    ensures |r| == |links|
    ensures forall k :: 0 <= k < |links| && links[k].kind == ArrayLink ==> r[k] == arrays[k][..links[k].n]
    ensures forall k :: 0 <= k < |links| && links[k].kind != ArrayLink ==> r[k] == produced[k]
  {
    seq(|links|, k requires 0 <= k < |links| =>
      if links[k].kind == ArrayLink then arrays[k][..links[k].n] else produced[k])
  }

  /** Scattering an array link whose segment holds the array's own first n entries gives the array back. */
  lemma ScatterOwnSegment(cur: seq<real>, l: Link, g: seq<real>, recv: seq<real>)
    requires l.kind == ArrayLink && l.n <= |cur| && l.rstart + l.n <= |g|
    requires g[l.rstart..l.rstart + l.n] == cur[..l.n]
    ensures ScatterInto(cur, l, g, recv, 0) == cur
  {
    assert cur[..l.n] + cur[l.n..] == cur;
  }

  /** Up to an unsupported link, every gathered value list has its link's length. */
  lemma SourcesSized(links: seq<Link>, arrays: seq<seq<real>>, produced: seq<seq<real>>, rank: nat, stop: nat)
    requires |arrays| == |links| && |produced| == |links|
    requires forall i :: 0 <= i < |links| && links[i].kind == ArrayLink ==> links[i].n <= |arrays[i]|
    requires forall i :: 0 <= i < |links| && links[i].kind == DALink ==> |produced[i]| == links[i].n
    requires stop <= |links| && forall i :: 0 <= i < stop ==> links[i].kind != VecScatterLink
    ensures Sized(links, Sources(links, arrays, produced), rank, stop)
  {
    var src := Sources(links, arrays, produced);
    forall i | 0 <= i < stop && Counted(links[i], rank) ensures |src[i]| == links[i].n {
      if links[i].kind == ArrayLink {
        assert src[i] == arrays[i][..links[i].n];
      } else {
        assert links[i].kind == DALink && src[i] == produced[i];
      }
    }
  }

  /**
   * Gather then scatter on rank 0: scattering the packed vector that a gather
   * filled gives every array link back the array it was gathered from.
   */
  lemma GatherThenScatter(g: seq<real>, links: seq<Link>, arrays: seq<seq<real>>, produced: seq<seq<real>>,
                          stop: nat, k: nat, recv: seq<real>)
    requires Disjoint(links, 0) && Fits(links, 0, |g|)
    requires |arrays| == |links| && |produced| == |links|
    requires forall i :: 0 <= i < |links| && links[i].kind == ArrayLink ==> links[i].n <= |arrays[i]|
    requires forall i :: 0 <= i < |links| && links[i].kind == DALink ==> |produced[i]| == links[i].n
    requires stop <= |links| && forall i :: 0 <= i < stop ==> links[i].kind != VecScatterLink
    requires k < stop && links[k].kind == ArrayLink
    ensures links[k].rstart + links[k].n <= |g|
    ensures ScatterInto(arrays[k], links[k], Gathered(g, links, Sources(links, arrays, produced), 0, stop), recv, 0)
            == arrays[k]
  {
    var src := Sources(links, arrays, produced);
    SourcesSized(links, arrays, produced, 0, stop);
    GatheredPrefixSegment(g, links, src, 0, k, stop);
    ScatterOwnSegment(arrays[k], links[k], Gathered(g, links, src, 0, stop), recv);
  }

  /**
   * Scatter then gather: gathering from the arguments a scatter walk filled
   * gives back the packed vector, provided each DA link's transfer delivers
   * the segment it was scattered from.
   */
  lemma ScatterThenGather(g: seq<real>, links: seq<Link>, rank: nat, cur: seq<seq<real>>, received: seq<seq<real>>,
                          after: seq<seq<real>>, produced: seq<seq<real>>, stop: nat)
    requires Fits(links, rank, |g|)
    requires |cur| == |links| && |received| == |links| && |after| == |links| && |produced| == |links|
    requires stop <= |links| && forall k :: 0 <= k < stop ==> links[k].kind != VecScatterLink
    requires forall k :: 0 <= k < |links| && links[k].kind == ArrayLink ==>
      links[k].n <= |cur[k]| && (rank != 0 ==> |received[k]| == links[k].n)
    requires forall k :: 0 <= k < |links| ==>
      after[k] == if k < stop then ScatterInto(cur[k], links[k], g, received[k], rank) else cur[k]
    requires forall k :: 0 <= k < |links| && links[k].kind == ArrayLink ==> |after[k]| == |cur[k]|  // as ScatterInto ensures
    requires forall k :: 0 <= k < stop && links[k].kind == DALink ==>
      produced[k] == g[links[k].rstart..links[k].rstart + links[k].n]
    ensures Gathered(g, links, Sources(links, after, produced), rank, stop) == g
  {
    var src := Sources(links, after, produced);
    forall k | 0 <= k < stop && Counted(links[k], rank)
      ensures src[k] == g[links[k].rstart..links[k].rstart + links[k].n]
    {
      if links[k].kind == ArrayLink {
        assert rank == 0;
        assert after[k] == g[links[k].rstart..links[k].rstart + links[k].n] + cur[k][links[k].n..];
      }
    }
    GatherOwnSegments(g, links, src, rank, stop);
  }

  /** Global indices of the `m` entries from `start`. */
  function Iota(start: int, m: nat): (r: seq<int>)
    ensures |r| == m
    ensures forall i :: 0 <= i < m ==> r[i] == start + i
  {
    seq(m, i => start + i)
  }

  /** On rank 0 the index lists of two different links never share an index. */
  lemma IndicesDisjoint(links: seq<Link>, i: nat, j: nat, p: nat, q: nat)
    requires Laid(links, 0) && i < j < |links|
    requires p < links[i].n && q < links[j].n
    ensures Iota(links[i].rstart, links[i].n)[p] != Iota(links[j].rstart, links[j].n)[q]
  {
    LaidIsDisjoint(links, 0);
  }

  /**
   * The global indices of a link's entries: on rank 0 an array link's own
   * segment, which starts at global index 0 there; otherwise what rank 0
   * broadcasts or what the DA delivers.
   */
  function IndexList(l: Link, recv: seq<int>, rank: nat): seq<int> {
    if l.kind == ArrayLink && rank == 0 then Iota(l.rstart, l.n) else recv
  }

  /** The index walk of GetGlobalIndices: one list per supported link, stopping at the first other one. */
  method CollectIndices(links: seq<Link>, rank: nat, received: seq<seq<int>>) returns (idx: seq<seq<int>>, stop: nat)
    requires |received| == |links|
    ensures stop == FirstUnsupported(links) && |idx| == stop
    ensures forall k :: 0 <= k < stop ==> idx[k] == IndexList(links[k], received[k], rank)
  {
    idx := [];
    var i := 0;
    while i < |links|
      invariant 0 <= i <= |links| && |idx| == i
      invariant forall k :: 0 <= k < i ==> links[k].kind != VecScatterLink
      invariant forall k :: 0 <= k < i ==> idx[k] == IndexList(links[k], received[k], rank)
    {
      var l := links[i];
      if l.kind == ArrayLink {
        idx := idx + [if rank == 0 then Iota(l.rstart, l.n) else received[i]];
      } else if l.kind == DALink {
        idx := idx + [received[i]];
      } else {
        assert FirstUnsupported(links) == i;
        return idx, i;
      }
      i := i + 1;
    }
    stop := i;
  }

  /** dst[at..at + |d|] := d. */
  method PlaceAt(dst: array<real>, at: nat, d: seq<real>)
    requires at + |d| <= dst.Length
    modifies dst
    ensures dst[..] == Place(old(dst[..]), at, d)
  {
    forall j | 0 <= j < |d| {
      dst[at + j] := d[j];
    }
    assert dst[..] == old(dst[..])[..at] + d + old(dst[..])[at + |d|..];
  }

  /** Scatter for one supported link: fills its argument from the packed vector or from `recv`. */
  method ScatterLink(dst: array<real>, l: Link, g: seq<real>, recv: seq<real>, rank: nat)
    requires l.kind != VecScatterLink
    requires l.kind == ArrayLink ==> l.n <= dst.Length && (if rank == 0 then l.rstart + l.n <= |g| else |recv| == l.n)
    requires l.kind == DALink ==> |recv| == dst.Length
    modifies dst
    ensures dst[..] == ScatterInto(old(dst[..]), l, g, recv, rank)
  {
    if l.kind == ArrayLink {
      if rank == 0 {
        PlaceAt(dst, 0, g[l.rstart..l.rstart + l.n]);
      } else {
        PlaceAt(dst, 0, recv);
      }
    } else {
      PlaceAt(dst, 0, recv);
    }
  }

  /** Gather for one supported link: copies its values into its segment when the link is counted here. */
  method GatherLink(dst: array<real>, l: Link, d: seq<real>, rank: nat)
    requires l.kind != VecScatterLink
    requires Counted(l, rank) ==> |d| == l.n && l.rstart + l.n <= dst.Length
    modifies dst
    ensures dst[..] == if Counted(l, rank) then Place(old(dst[..]), l.rstart, d) else old(dst[..])
  {
    if l.kind == ArrayLink {
      if rank == 0 {
        PlaceAt(dst, l.rstart, d);
      }
    } else {
      PlaceAt(dst, l.rstart, d);
    }
  }

  /**
   * The gather walk: copies each supported link's values into its segment
   * of `gvec`, and stops at the first link it cannot handle.
   */
  method GatherLinks(gvec: array<real>, links: seq<Link>, rank: nat, arrays: seq<seq<real>>, produced: seq<seq<real>>)
    returns (stop: nat)
    requires Fits(links, rank, gvec.Length)
    requires |arrays| == |links| && |produced| == |links|
    requires forall k :: 0 <= k < |links| && links[k].kind == ArrayLink ==> links[k].n <= |arrays[k]|
    requires forall k :: 0 <= k < |links| && links[k].kind == DALink ==> |produced[k]| == links[k].n
    modifies gvec
    ensures stop == FirstUnsupported(links)
    ensures gvec[..] == Gathered(old(gvec[..]), links, Sources(links, arrays, produced), rank, stop)
  {
    ghost var g0 := gvec[..];
    ghost var src := Sources(links, arrays, produced);
    stop := FirstUnsupported(links);
    var i := 0;
    while i < stop
      invariant 0 <= i <= stop
      invariant gvec[..] == Gathered(g0, links, src, rank, i)
    {
      var l := links[i];
      var d := if l.kind == ArrayLink then arrays[i][..l.n] else produced[i];
      assert d == src[i];
      assert l.rstart + Extent(l, rank) <= gvec.Length;
      GatherNext(gvec, links, src, rank, i, g0, d);
      i := i + 1;
    }
  }

  /** One step of the gather walk: link i joins the gathered prefix. */
  method GatherNext(gvec: array<real>, links: seq<Link>, ghost src: seq<seq<real>>, rank: nat, i: nat, ghost g0: seq<real>, d: seq<real>)
    requires i < |links| <= |src| && links[i].kind != VecScatterLink && d == src[i]
    requires Counted(links[i], rank) ==> |d| == links[i].n && links[i].rstart + links[i].n <= gvec.Length
    requires gvec[..] == Gathered(g0, links, src, rank, i)
    modifies gvec
    ensures gvec[..] == Gathered(g0, links, src, rank, i + 1)
  {
    GatherLink(gvec, links[i], d, rank);
  }

  /**
   * The freeze walk: gives each link the running total of the extents
   * before it as its offset.
   */
  method LayOut(links: seq<Link>, rank: nat) returns (laid: seq<Link>)
    ensures SameShape(laid, links) && Laid(laid, rank)
  {
    var nprev := 0;
    laid := [];
    var i := 0;
    while i < |links|
      invariant 0 <= i <= |links|
      invariant SameShape(laid, links[..i]) && Laid(laid, rank)
      invariant nprev == TotalExtent(laid, rank)
    {
      var next := links[i].(rstart := nprev);
      assert (laid + [next])[..|laid|] == laid;
      assert links[..i + 1] == links[..i] + [links[i]];
      laid := laid + [next];
      if rank == 0 || links[i].kind != ArrayLink {
        nprev := nprev + links[i].n;
      }
      assert nprev == TotalExtent(laid, rank);
      i := i + 1;
    }
    assert links[..i] == links;
  }

  /**
   * The scatter walk: fills each supported link's argument, and stops at
   * the first link it cannot handle.
   */
  method ScatterLinks(gvec: array<real>, links: seq<Link>, rank: nat, args: seq<array<real>>, received: seq<seq<real>>)
    returns (stop: nat)
    requires Fits(links, rank, gvec.Length)
    requires |args| == |links| && |received| == |links|
    requires forall k :: 0 <= k < |args| ==> args[k] != gvec
    requires forall i, j :: 0 <= i < |args| && 0 <= j < |args| && i != j ==> args[i] != args[j]
    requires forall k :: 0 <= k < |links| && links[k].kind == ArrayLink ==>
      links[k].n <= args[k].Length && (rank != 0 ==> |received[k]| == links[k].n)
    requires forall k :: 0 <= k < |links| && links[k].kind == DALink ==> |received[k]| == args[k].Length
    modifies set k | 0 <= k < |args| :: args[k]
    ensures stop == FirstUnsupported(links)
    ensures forall k :: 0 <= k < |args| ==>
      args[k][..] == if k < stop then ScatterInto(old(args[k][..]), links[k], gvec[..], received[k], rank)
                     else old(args[k][..])
  {
    var g := gvec[..];
    stop := FirstUnsupported(links);
    var i := 0;
    while i < stop
      invariant 0 <= i <= stop
      invariant forall k :: 0 <= k < |args| ==>
        args[k][..] == if k < i then ScatterInto(old(args[k][..]), links[k], g, received[k], rank)
                       else old(args[k][..])
    {
      ScatterLink(args[i], links[i], g, received[i], rank);
      i := i + 1;
    }
  }

  // ---------------------------------------------------------------------
  // The packer
  // ---------------------------------------------------------------------

  class Packer {
    const rank: nat
    var n: nat                  // this rank's length of the packed vector
    var links: seq<Link>        // the packed objects, in the order they were added
    var nDA: nat
    var nredundant: nat
    var global: array?<real>    // the packed vector, once created

    ghost predicate Valid()
      reads this
    {
      && n == TotalExtent(links, rank)
      && nDA == CountKind(links, DALink)
      && nredundant == CountKind(links, ArrayLink)
      && (global != null ==> Laid(links, rank) && Disjoint(links, rank) && Fits(links, rank, n) && global.Length == n)
    }

    /** An empty packer that has no global vector yet. */
    constructor (rank: nat)
      ensures Valid() && this.rank == rank
      ensures n == 0 && links == [] && nDA == 0 && nredundant == 0 && global == null
    {
      this.rank := rank;
      n := 0;
      links := [];
      nDA := 0;
      nredundant := 0;
      global := null;
    }

    /** Appends a redundant array of length m; its entries count only on rank 0. */
    method AddArray(m: nat) returns (err: Option<PackError>)
      requires Valid()
      modifies this
      ensures Valid()
      ensures err == (if old(global) != null then Some(AlreadyFrozen) else None)
      ensures err.Some? ==>
        n == old(n) && links == old(links) && nDA == old(nDA) && nredundant == old(nredundant) && global == old(global)
      ensures err.None? ==> links == old(links) + [Link(ArrayLink, m, 0)]
      ensures err.None? ==> n == old(n) + (if rank == 0 then m else 0)
      ensures err.None? ==> nredundant == old(nredundant) + 1 && nDA == old(nDA) && global == null
    {
      if global != null {
        return Some(AlreadyFrozen);
      }
      var mine := Link(ArrayLink, m, 0);
      if rank == 0 {
        n := n + m;
      }
      assert (links + [mine])[..|links|] == links;
      links := links + [mine];
      nredundant := nredundant + 1;
      err := None;
    }

    /** Appends a DA block whose global vector has `daLocalSize` entries on this rank. */
    method AddDA(daLocalSize: nat) returns (err: Option<PackError>)
      requires Valid()
      modifies this
      ensures Valid()
      ensures err == (if old(global) != null then Some(AlreadyFrozen) else None)
      ensures err.Some? ==>
        n == old(n) && links == old(links) && nDA == old(nDA) && nredundant == old(nredundant) && global == old(global)
      ensures err.None? ==> links == old(links) + [Link(DALink, daLocalSize, 0)]
      ensures err.None? ==> n == old(n) + daLocalSize
      ensures err.None? ==> nDA == old(nDA) + 1 && nredundant == old(nredundant) && global == null
    {
      if global != null {
        return Some(AlreadyFrozen);
      }
      var mine := Link(DALink, daLocalSize, 0);
      n := n + daLocalSize;
      assert (links + [mine])[..|links|] == links;
      links := links + [mine];
      nDA := nDA + 1;
      err := None;
    }

    /**
     * The first call creates the packed vector, keeps it and lays the links
     * out in list order; later calls return a new vector of the same length
     * and leave the layout alone.
     */
    method CreateGlobalVector() returns (gvec: array<real>)
      requires Valid()
      modifies this`links, this`global
      ensures Valid() && global != null && fresh(gvec) && gvec.Length == n
      ensures old(global) == null ==> gvec == global && SameShape(links, old(links))
      ensures old(global) != null ==> global == old(global) && links == old(links)
    {
      if global != null {
        gvec := new real[global.Length];
        return;
      }
      gvec := new real[n];
      global := gvec;
      var laid := LayOut(links, rank);
      SameShapeSameExtent(laid, links, rank);
      links := laid;
      LaidIsDisjoint(links, rank);
    }

    /**
     * Copies each link's segment of `gvec` out to its argument, in list
     * order, one argument per link.
     */
    method Scatter(gvec: array<real>, args: seq<array<real>>, received: seq<seq<real>>)
      returns (err: Option<PackError>)
      requires Valid()
      requires global != null ==>
        && gvec.Length == n && |args| == |links| && |received| == |links|
        && (forall k :: 0 <= k < |args| ==> args[k] != gvec)
        && (forall i, j :: 0 <= i < |args| && 0 <= j < |args| && i != j ==> args[i] != args[j])
        && (forall k :: 0 <= k < |links| && links[k].kind == ArrayLink ==>
              links[k].n <= args[k].Length && (rank != 0 ==> |received[k]| == links[k].n))
        && (forall k :: 0 <= k < |links| && links[k].kind == DALink ==> |received[k]| == args[k].Length)
      modifies set k | 0 <= k < |args| :: args[k]
      ensures Valid()
      ensures var stop := if global == null then 0 else FirstUnsupported(links);
        && err == (if global == null then Some(NotFrozen)
                   else if stop < |links| then Some(UnsupportedLink) else None)
        && forall k :: 0 <= k < |args| ==>
             args[k][..] == if k < stop then ScatterInto(old(args[k][..]), links[k], gvec[..], received[k], rank)
                            else old(args[k][..])
    {
      if global == null {
        return Some(NotFrozen);
      }
      var stop := ScatterLinks(gvec, links, rank, args, received);
      err := if stop < |links| then Some(UnsupportedLink) else None;
    }

    /**
     * Copies each link's values into its segment of `gvec`, in list order,
     * one argument per link: the contents of an array link's array, or
     * what the DA transfer of a DA link's local vector delivers.
     */
    method Gather(gvec: array<real>, arrays: seq<seq<real>>, produced: seq<seq<real>>)
      returns (err: Option<PackError>)
      requires Valid()
      requires global != null ==>
        && gvec.Length == n && |arrays| == |links| && |produced| == |links|
        && (forall k :: 0 <= k < |links| && links[k].kind == ArrayLink ==> links[k].n <= |arrays[k]|)
        && (forall k :: 0 <= k < |links| && links[k].kind == DALink ==> |produced[k]| == links[k].n)
      modifies gvec
      ensures Valid()
      ensures global == null ==> err == Some(NotFrozen) && gvec[..] == old(gvec[..])
      ensures global != null ==>
        var stop := FirstUnsupported(links);
        && err == (if stop < |links| then Some(UnsupportedLink) else None)
        && gvec[..] == Gathered(old(gvec[..]), links, Sources(links, arrays, produced), rank, stop)
    {
      if global == null {
        return Some(NotFrozen);
      }
      var stop := GatherLinks(gvec, links, rank, arrays, produced);
      err := if stop < |links| then Some(UnsupportedLink) else None;
    }

    /**
     * The global index of every entry of every link, creating the packed
     * vector first if need be. On rank 0 an array link's indices are those of
     * its own segment; other ranks receive rank 0's by broadcast, and a DA
     * link's come from the DA (both in `received`).
     */
    method GetGlobalIndices(received: seq<seq<int>>) returns (idx: seq<seq<int>>, err: Option<PackError>)
      requires Valid() && |received| == |links|
      modifies this`links, this`global
      ensures Valid() && global != null && SameShape(links, old(links))
      ensures old(global) != null ==> global == old(global) && links == old(links)
      ensures var stop := FirstUnsupported(links);
        && err == (if stop < |links| then Some(UnsupportedLink) else None)
        && |idx| == stop
        && forall k :: 0 <= k < stop ==> idx[k] == IndexList(links[k], received[k], rank)
    {
      var gv := CreateGlobalVector();
      var stop;
      idx, stop := CollectIndices(links, rank, received);
      err := if stop < |links| then Some(UnsupportedLink) else None;
    }
  }
}

/**
 * The linked list behind the vector packer (src/dm/da/utils/pack.c), at the
 * level of its `next` pointers. VecPacking models the list as a sequence
 * in insertion order; this module shows what that sequence stands for.
 *
 * Node i is the i-th link allocated. Its `next` field is `Null`, a pointer
 * to another node, or `Unset`: never assigned since allocation.
 */
module PackList {

  datatype Next = Null | To(node: nat) | Unset

  /** The packer's `next` field (the head) and the `next` field of every node. */
  datatype LinkList = LinkList(head: Next, nexts: seq<Next>)

  /** How a walk along `next` pointers ends. */
  datatype Walk =
    | EndsAt(tail: nat)   // at a node whose `next` is null
    | ReadsUnset(at: nat) // by testing a `next` that was never assigned
    | Lost                // by leaving the nodes, or after more steps than there are nodes

  /** The tail walk `while (next->next) next = next->next;` from node `cur`, with at most `fuel` steps. */
  function TailFrom(nexts: seq<Next>, cur: nat, fuel: nat): (w: Walk)
    requires cur < |nexts|
    ensures w.EndsAt? ==> w.tail < |nexts| && nexts[w.tail] == Null
    ensures w.ReadsUnset? ==> w.at < |nexts| && nexts[w.at] == Unset
    decreases fuel
  {
    match nexts[cur]
    case Null => EndsAt(cur)
    case Unset => ReadsUnset(cur)
    case To(k) => if k < |nexts| && fuel > 0 then TailFrom(nexts, k, fuel - 1) else Lost
  }

  /**
   * Adding a link: a new node whose `next` holds `init` is hung on the head
   * when the list is empty, and on the tail the walk finds otherwise. When
   * the walk does not find a tail the behaviour is undefined; the model then
   * leaves the new node unreachable.
   */
  function Append(l: LinkList, init: Next): (r: LinkList)
    requires l.head.To? ==> l.head.node < |l.nexts|
    ensures |r.nexts| == |l.nexts| + 1 && r.nexts[|l.nexts|] == init
  {
    var id := |l.nexts|;
    if !l.head.To? then LinkList(To(id), l.nexts + [init])
    else
      match TailFrom(l.nexts, l.head.node, |l.nexts|)
      case EndsAt(t) => LinkList(l.head, (l.nexts + [init])[t := To(id)])
      case _ => LinkList(l.head, l.nexts + [init])
  }

  /** The empty list of a new packer: its head is set to null. */
  const Empty := LinkList(Null, [])

  /** Adding a link as written: the new node's `next` is never assigned. */
  function AppendAsWritten(l: LinkList): (r: LinkList)
    requires l.head.To? ==> l.head.node < |l.nexts|
    ensures |r.nexts| == |l.nexts| + 1 && r.nexts[|l.nexts|] == Unset
  {
    Append(l, Unset)
  }

  /** Adding a link as intended: the new node's `next` is null. */
  function AppendCorrected(l: LinkList): (r: LinkList)
    requires l.head.To? ==> l.head.node < |l.nexts|
    ensures |r.nexts| == |l.nexts| + 1 && r.nexts[|l.nexts|] == Null
  {
    Append(l, Null)
  }

  /**
   * As written, the second add already walks into an unassigned pointer:
   * the first link's `next` is tested by the tail walk but was never set.
   */
  lemma SecondAddReadsUnset()
    ensures AppendAsWritten(Empty) == LinkList(To(0), [Unset])
    ensures TailFrom(AppendAsWritten(Empty).nexts, 0, 1) == ReadsUnset(0)
    ensures !Chain(AppendAsWritten(Empty))
  {
  }

  /** The nodes form one null-terminated list from the head, in allocation order. */
  predicate Chain(l: LinkList) {
    if |l.nexts| == 0 then l.head == Null
    else
      && l.head == To(0)
      && (forall i :: 0 <= i < |l.nexts| - 1 ==> l.nexts[i] == To(i + 1))
      && l.nexts[|l.nexts| - 1] == Null
  }

  /** On a chain, the tail walk from any node ends at the last node. */
  lemma {:induction false} ChainTail(l: LinkList, cur: nat, fuel: nat)
    requires Chain(l) && cur < |l.nexts| && |l.nexts| - 1 - cur <= fuel
    ensures TailFrom(l.nexts, cur, fuel) == EndsAt(|l.nexts| - 1)
    decreases |l.nexts| - cur
  {
    if cur < |l.nexts| - 1 {
      ChainTail(l, cur + 1, fuel - 1);
    }
  }

  /** With the new node's `next` set to null, every add appends at the tail and keeps the list a chain. */
  lemma AppendCorrectedKeepsChain(l: LinkList)
    requires Chain(l)
    ensures Chain(AppendCorrected(l))
  {
    var m := |l.nexts|;
    if m > 0 {
      ChainTail(l, 0, m);
      var r := AppendCorrected(l);
      assert r.nexts == (l.nexts + [Null])[m - 1 := To(m)];
      forall i | 0 <= i < m ensures r.nexts[i] == To(i + 1) {
        if i < m - 1 {
          assert r.nexts[i] == l.nexts[i];
        }
      }
    }
  }

  /** Every list built from the empty one by corrected adds is a chain of that many nodes. */
  lemma {:induction false} CorrectedAddsBuildChain(k: nat)
    ensures Chain(AddsCorrected(k)) && |AddsCorrected(k).nexts| == k
  {
    if k > 0 {
      CorrectedAddsBuildChain(k - 1);
      AppendCorrectedKeepsChain(AddsCorrected(k - 1));
    }
  }

  /** The list after k corrected adds to a new packer. */
  function AddsCorrected(k: nat): (r: LinkList)
    ensures |r.nexts| == k
    ensures r.head.To? ==> r.head.node < |r.nexts|
  {
    if k == 0 then Empty
    else
      var prev := AddsCorrected(k - 1);
      AppendCorrected(prev)
  }
}

/**
 The defaulting webhook of the cluster resource: it changes the second member's size through a pointer.
 */
module Webhook {
  import opened Api
  import opened DeepCopy

  // ----- What the call does to the values -----

  const TWO_TO_THE_32 := 0x1_0000_0000

  /** The int32 that int32 arithmetic gives for `n`. */
  function Wrap(n: int): int32 {
    (n + 0x8000_0000) % TWO_TO_THE_32 - 0x8000_0000
  }

  function Bumped(m: Member): Member {
    m.(size := Some(match m.size case None => 3 case Some(s) => Wrap(s + 1)))
  }

  predicate HasSecond(v: SpecView) {
    v.member.Some? && |v.member.value| > 1
  }

  function Defaulted(v: SpecView): SpecView {
    if HasSecond(v) then
      v.(member := Some(v.member.value[1 := Bumped(v.member.value[1])]))
    else
      v
  }

  function Repeated(v: SpecView, k: nat): SpecView {
    if k == 0 then v else Defaulted(Repeated(v, k - 1))
  }

  /** All that `k` calls change: the second size, to `s + k`, or to `k + 2` if it was unset. */
  function Raised(v: SpecView, k: nat): SpecView
    requires HasSecond(v)
  {
    var m := v.member.value[1];
    var size := match m.size case None => Wrap(k + 2) case Some(s) => Wrap(s + k);
    v.(member := Some(v.member.value[1 := m.(size := Some(size))]))
  }

  lemma WrapTwice(n: int)
    ensures Wrap(Wrap(n) + 1) == Wrap(n + 1)
  {
  }

  lemma {:induction false} RepeatedRaises(v: SpecView, k: nat)
    requires k > 0
    ensures Repeated(v, k) == if HasSecond(v) then Raised(v, k) else v
  {
    hide Wrap;
    if k == 1 {
      assert Repeated(v, 0) == v;
      assert Wrap(3) == 3 by { WrapSmall(3); }
    } else {
      RepeatedRaises(v, k - 1);
      if HasSecond(v) {
        var size := v.member.value[1].size;
        WrapTwice(if size == None then k + 1 else size.value + k - 1);
        assert v.member.value[1 := Raised(v, k - 1).member.value[1]][1 := Raised(v, k).member.value[1]]
            == v.member.value[1 := Raised(v, k).member.value[1]];
      }
    }
  }

  lemma WrapSmall(n: int32)
    ensures Wrap(n) == n
  {
  }

  lemma WrapEqual(m: int, n: int)
    ensures Wrap(m) == Wrap(n) <==> (m - n) % TWO_TO_THE_32 == 0
  {
  }

  /** The counts of calls that cannot be told apart: any two for a short list, else those that differ by a multiple of 2^32. */
  lemma SameAfter(v: SpecView, j: nat, k: nat)
    requires j > 0 && k > 0
    ensures Repeated(v, j) == Repeated(v, k) <==> (HasSecond(v) ==> (j - k) % TWO_TO_THE_32 == 0)
  {
    hide Wrap, Repeated;
    RepeatedRaises(v, j);
    RepeatedRaises(v, k);
    if HasSecond(v) {
      assert Raised(v, j).member.value[1].size == Raised(v, k).member.value[1].size ==> Raised(v, j) == Raised(v, k);
      match v.member.value[1].size
      case None => WrapEqual(j + 2, k + 2);
      case Some(s) => WrapEqual(s + j, s + k);
    }
  }

  /** A second call is without effect exactly if there is no second member. */
  lemma IdempotentIff(v: SpecView)
    ensures Defaulted(Defaulted(v)) == Defaulted(v) <==> !HasSecond(v)
  {
    SameAfter(v, 2, 1);
    assert Repeated(v, 0) == v;
    assert Repeated(v, 1) == Defaulted(v);
  }

  // ----- The call on the heap -----

  ghost function SecondSize(s: SpecRef): set<object>
    reads s.member
  {
    if s.member != null && s.member.Length > 1 then At(s.member[1].size) else {}
  }

  /** No other part of the spec reads the cell of the second size. */
  ghost predicate SecondAlone(s: SpecRef)
    reads s.member, s.clusterSpec, SpineClusterAt(s.clusterSpec), s.proxySpec, s.schedulerBuckup, s.metricsCollection
    reads SpineRest(s)
  {
    s.member != null && s.member.Length > 1 && s.member[1].size != null ==>
      && s.member[1].size !in ReachRest(s)
      && forall i | 0 <= i < s.member.Length && i != 1 :: s.member[i].size != s.member[1].size
  }

  /** What `Default` writes to: the member slice, or a number behind a pointer. */
  ghost predicate Written(o: object) {
    o is array<MemberRef> || o is Cell<int32>
  }

  lemma NotInContainers(o: object, slice: array?<Container>)
    requires Written(o)
    ensures o !in ReachContainers(slice)
  {
  }

  lemma NotInMaps(o: object, p: PodSpec)
    requires Written(o)
    ensures o !in ReachMaps(p) && o !in ReachAffinity(p.affinity)
  {
  }

  lemma NotInLeaves(o: object, p: PodSpec)
    requires Written(o)
    ensures o !in ReachLeaves(p)
  {
  }

  lemma NotInPod(o: object, p: PodSpec)
    requires Written(o)
    ensures o !in ReachPod(p)
  {
    hide Written, ReachAffinity, ReachMaps, ReachLeaves, ReachContainers;
    NotInMaps(o, p);
    NotInLeaves(o, p);
    NotInContainers(o, p.containers);
  }

  lemma NotInExpose(o: object, e: ServiceExpose)
    requires Written(o)
    ensures o !in ReachExpose(e)
  {
  }

  lemma NotInProxy(o: object, cell: Cell?<Proxy>)
    requires Written(o)
    ensures o !in ReachProxyAt(cell)
  {
    hide ReachPod, ReachExpose;
    if cell != null {
      NotInPod(o, cell.value.podSpec);
      NotInExpose(o, cell.value.expose);
    }
  }

  lemma NotInPodAt(o: object, cell: Cell?<PodSpec>)
    requires Written(o)
    ensures o !in ReachPodAt(cell)
  {
    hide ReachPod;
    if cell != null {
      NotInPod(o, cell.value);
    }
  }

  lemma ArrayElsewhere(s: SpecRef)
    ensures s.member != null ==> s.member !in ReachRest(s)
  {
    hide ReachPodAt, ReachProxyAt;
    if s.member != null {
      NotInProxy(s.member, s.proxySpec);
      if s.clusterSpec != null {
        NotInPodAt(s.member, s.clusterSpec.value.podSpec);
      }
    }
  }

  twostate lemma SecondBumped(s: SpecRef)
    requires s.member != null && s.member.Length > 1
    requires old(allocated(ReachRest(s)))
    requires unchanged(old(ReachRest(s)))
    requires forall i | 0 <= i < s.member.Length && i != 1 :: ViewMember(s.member[i]) == old(ViewMember(s.member[i]))
    requires ViewMember(s.member[1]) == Bumped(old(ViewMember(s.member[1])))
    ensures ReachRest(s) == old(ReachRest(s)) && ViewSpec(s) == Defaulted(old(ViewSpec(s)))
  {
    hide ReachRest, ViewRest, Bumped;
    RestKept(s);
    assert ViewMembers(s.member[..]) == old(ViewMembers(s.member[..]))[1 := ViewMember(s.member[1])];
  }

  /** The only other number in a spec is the partition of the update strategy. */
  ghost predicate IsPartition(c: Cell<int32>, cell: Cell?<MySQLGroupReplicationCluster>)
    reads cell, SpineClusterAt(cell), SpinesClusterAt(cell)
  {
    && cell != null && cell.value.updateStrategy != null && cell.value.updateStrategy.value.rolling != null
    && cell.value.updateStrategy.value.rolling.value.partition == c
  }

  lemma NumberInCluster(c: Cell<int32>, cell: Cell?<MySQLGroupReplicationCluster>)
    requires c in ReachClusterAt(cell)
    ensures IsPartition(c, cell)
  {
    hide ReachPodAt;
    if cell != null {
      NotInPodAt(c, cell.value.podSpec);
    }
  }

  lemma NumberInRest(c: Cell<int32>, s: SpecRef)
    requires c in ReachRest(s)
    ensures IsPartition(c, s.clusterSpec)
  {
    hide ReachClusterAt, ReachProxyAt, IsPartition;
    NotInProxy(c, s.proxySpec);
    NumberInCluster(c, s.clusterSpec);
  }

  /** Where else the cell of the second size is read: by another member, or as the partition. */
  datatype Place = AtMember(i: nat) | AtPartition

  ghost predicate Shares(s: SpecRef, place: Place)
    reads s.member, s.clusterSpec, SpineClusterAt(s.clusterSpec), SpinesClusterAt(s.clusterSpec)
  {
    && s.member != null && s.member.Length > 1 && s.member[1].size != null
    && match place
       case AtMember(i) => i < s.member.Length && i != 1 && s.member[i].size == s.member[1].size
       case AtPartition => IsPartition(s.member[1].size, s.clusterSpec)
  }

  lemma SharedSomewhere(s: SpecRef) returns (place: Place)
    requires !SecondAlone(s)
    ensures Shares(s, place)
  {
    hide ReachRest, IsPartition;
    if i :| 0 <= i < s.member.Length && i != 1 && s.member[i].size == s.member[1].size {
      place := AtMember(i);
    } else {
      place := AtPartition;
      NumberInRest(s.member[1].size, s);
    }
  }

  /** The number that a spec shows at a place. */
  function Shown(v: SpecView, place: Place): Option<int32> {
    match place
    case AtMember(i) =>
      if v.member.Some? && i < |v.member.value| then v.member.value[i].size else None
    case AtPartition =>
      if v.rest.clusterSpec.Some? && v.rest.clusterSpec.value.updateStrategy.Some?
         && v.rest.clusterSpec.value.updateStrategy.value.rolling.Some?
      then v.rest.clusterSpec.value.updateStrategy.value.rolling.value.partition
      else None
  }

  lemma SharedShown(s: SpecRef, place: Place)
    requires Shares(s, place)
    ensures Shown(ViewSpec(s), place) == Some(s.member[1].size.value)
  {
    hide ReachRest;
  }

  lemma DefaultedElsewhere(v: SpecView, place: Place)
    requires place != AtMember(1)
    ensures Shown(Defaulted(v), place) == Shown(v, place)
  {
  }

  lemma WrapMoves(n: int32)
    ensures Wrap(n + 1) != n
  {
  }

  lemma ShortKept(s: SpecRef)
    requires s.member == null || s.member.Length <= 1
    ensures Defaulted(ViewSpec(s)) == ViewSpec(s)
  {
  }

  class GroupReplicationCluster {
    var meta: string
    var spec: SpecRef
    var status: string

    constructor (meta: string, spec: SpecRef, status: string)
      ensures this.meta == meta && this.spec == spec && this.status == status
    {
      this.meta, this.spec, this.status := meta, spec, status;
    }

    method DeepCopy() returns (out: GroupReplicationCluster)
      ensures fresh(out) && out.meta == meta && out.status == status
      ensures ViewSpec(out.spec) == old(ViewSpec(spec))
      ensures fresh(ReachSpec(out.spec)) && SecondAlone(out.spec)
    {
      var copy := CopySpec(spec);
      label copied:
      out := new GroupReplicationCluster(meta, copy, status);
      SpecKept@copied(copy);
    }

    method Default()
      modifies spec.member, SecondSize(spec)
      ensures unchanged(this)
      ensures old(SecondAlone(spec)) ==> SecondAlone(spec)
      ensures ViewSpec(spec) == Defaulted(old(ViewSpec(spec))) <==> old(SecondAlone(spec))
      ensures fresh(SecondSize(spec) - old(SecondSize(spec)))
    {
      hide ReachRest, ViewSpec, Defaulted, Wrap;
      ArrayElsewhere(spec);
      RestAllocated(spec);
      var member := spec.member;
      if member != null && member.Length > 1 {
        if member[0].GetSize() < 3 {
          if member[1].size != null {
            ghost var place := AtPartition;
            if !SecondAlone(spec) {
              place := SharedSomewhere(spec);
              SharedShown(spec, place);
              DefaultedElsewhere(ViewSpec(spec), place);
              WrapMoves(member[1].size.value);
            }
            member[1].size.value := Wrap(member[1].size.value + 1);
            if old(!SecondAlone(spec)) {
              SharedShown(spec, place);
            }
          } else {
            var size := new Cell(3);
            member[1] := member[1].(size := size);
          }
          if old(SecondAlone(spec)) {
            SecondBumped(spec);
          }
        }
      } else {
        ShortKept(spec);
      }
    }
  }

  lemma SecondReached(s: SpecRef)
    ensures s.member != null ==> s.member in ReachSpec(s)
    ensures SecondSize(s) <= ReachSpec(s)
  {
    hide ReachRest;
    if s.member != null && s.member.Length > 1 {
      assert s.member[..][1] == s.member[1];
    }
  }

  /** Any number of calls on a deep copy show in the copy alone. */
  method DefaultOnCopy(r: GroupReplicationCluster, k: nat) returns (copy: GroupReplicationCluster)
    ensures fresh(copy) && copy.meta == r.meta && copy.status == r.status
    ensures ViewSpec(copy.spec) == Repeated(old(ViewSpec(r.spec)), k)
    ensures r.spec == old(r.spec) && ViewSpec(r.spec) == old(ViewSpec(r.spec))
  {
    hide ReachSpec, ReachRest, SizeCells, ViewSpec, Defaulted, SecondAlone;
    SpecAllocated(r.spec);
    copy := r.DeepCopy();
    SecondReached(copy.spec);
    label copied:
    for i := 0 to k
      invariant unchanged@copied(copy) && (copy.spec.member != null ==> fresh(copy.spec.member))
      invariant fresh(SecondSize(copy.spec)) && SecondAlone(copy.spec)
      invariant ViewSpec(copy.spec) == Repeated(old(ViewSpec(r.spec)), i)
    {
      copy.Default();
    }
    SpecKept(r.spec);
  }
}

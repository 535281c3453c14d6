/**
 The generated deep copy of a cluster's spec, on the heap.

 A struct is a value; a pointer is a reference to a cell, a map is a cell that holds its entries and a
 slice is an array, so null stands for nil in all three. `Reach` collects what a struct refers to, directly or
 not, and `View` reads it all out. A value of a type declared outside the repository is one opaque text,
 in a cell or a slice of its own where the source has a pointer or a slice; all other plain fields make up `plain`.
 */
module DeepCopy {
  import opened Api

  class Cell<T> {
    var value: T

    constructor (value: T)
      ensures this.value == value
    {
      this.value := value;
    }
  }

  type Text = map<string, string>

  ghost function At<T>(cell: Cell?<T>): set<object> {
    if cell == null then {} else {cell}
  }

  ghost function Read<T>(cell: Cell?<T>): Option<T>
    reads cell
  {
    if cell == null then None else Some(cell.value)
  }

  ghost function AtSlice<T>(slice: array?<T>): set<object> {
    if slice == null then {} else {slice}
  }

  ghost function ReadSlice<T>(slice: array?<T>): Option<seq<T>>
    reads slice
  {
    if slice == null then None else Some(slice[..])
  }

  /** The lines that make a new slice and copy the elements over. */
  method CopySlice(from: array?<string>) returns (out: array?<string>)
    ensures fresh(AtSlice(out)) && ReadSlice(out) == old(ReadSlice(from))
  {
    if from == null {
      return null;
    }
    var fill := new string[from.Length](_ => "");
    for i := 0 to from.Length
      invariant fill[..i] == old(from[..i])
    {
      fill[i] := from[i];
    }
    assert fill[..] == old(from[..]);
    out := fill;
  }

  /** The lines that allocate a new cell for a pointer that is set and copy the value over. */
  method CopyCell<T>(from: Cell?<T>) returns (out: Cell?<T>)
    ensures fresh(At(out)) && Read(out) == old(Read(from))
  {
    if from == null {
      return null;
    }
    out := new Cell(from.value);
  }

  /** The lines that range over a map; any key may come next. */
  method CopyText(from: Cell?<Text>) returns (out: Cell?<Text>)
    ensures fresh(At(out)) && Read(out) == old(Read(from))
  {
    if from == null {
      return null;
    }
    var fill := new Cell(map[]);
    var todo := from.value.Keys;
    while todo != {}
      invariant todo <= from.value.Keys && fill.value == from.value - todo
    {
      var key :| key in todo;
      fill.value := fill.value[key := from.value[key]];
      todo := todo - {key};
    }
    assert from.value - {} == from.value;
    out := fill;
  }

  // ----- Members -----

  datatype MemberRef = MemberRef(role: string, size: Cell?<int32>) {
    /** Zero or one: whether a size is set, not the size. */
    function GetSize(): int32 {
      if size != null then 1 else 0
    }
  }

  ghost function ViewMember(m: MemberRef): Member
    reads m.size
  {
    Member(m.role, Read(m.size))
  }

  method CopyMember(from: MemberRef) returns (out: MemberRef)
    ensures fresh(At(out.size)) && ViewMember(out) == old(ViewMember(from))
  {
    out := from;
    if from.size != null {
      var size := CopyCell(from.size);
      out := out.(size := size);
    }
  }

  ghost function Sizes(members: seq<MemberRef>): set<object> {
    set i | 0 <= i < |members| && members[i].size != null :: members[i].size
  }

  ghost function ViewMembers(members: seq<MemberRef>): (v: seq<Member>)
    reads Sizes(members)
    ensures |v| == |members|
    ensures forall i | 0 <= i < |v| :: v[i] == ViewMember(members[i])
  {
    if members == [] then
      []
    else
      assert Sizes(members[..|members| - 1]) <= Sizes(members);
      ViewMembers(members[..|members| - 1]) + [ViewMember(members[|members| - 1])]
  }

  /** No two members share a size cell. */
  ghost predicate Apart(members: seq<MemberRef>) {
    forall i, j | 0 <= i < j < |members| :: members[i].size != null ==> members[i].size != members[j].size
  }

  method CopyMembers(from: array<MemberRef>) returns (out: array<MemberRef>)
    ensures fresh(out) && fresh(Sizes(out[..]))
    ensures Apart(out[..]) && ViewMembers(out[..]) == old(ViewMembers(from[..]))
  {
    out := new MemberRef[from.Length](_ => MemberRef("", null));
    for i := 0 to from.Length
      invariant forall k | 0 <= k < i :: fresh(At(out[k].size))
      invariant Apart(out[..i])
      invariant forall k | 0 <= k < i :: ViewMember(out[k]) == old(ViewMember(from[k]))
    {
      var m := CopyMember(from[i]);
      out[i] := m;
    }
  }

  // ----- Pods -----

  datatype PodAffinity = PodAffinity(topologyKey: Cell?<string>)

  datatype Container = Container(imagePullSecrets: array?<string>, securityContext: Cell?<string>, envs: array?<string>, plain: string)

  datatype PodSpec = PodSpec(
    affinity: Cell?<PodAffinity>,
    annotation: Cell?<Text>,
    labels: Cell?<Text>,
    nodeSelector: Cell?<Text>,
    tolerations: array?<string>,
    grace: Cell?<int64>,
    securityContext: Cell?<string>,
    containers: array?<Container>,
    claimTemplate: Cell?<string>,
    plain: string)

  datatype ContainerView =
    ContainerView(imagePullSecrets: Option<seq<string>>, securityContext: Option<string>, envs: Option<seq<string>>, plain: string)

  datatype PodView = PodView(
    affinity: Option<Option<string>>,
    annotation: Option<Text>,
    labels: Option<Text>,
    nodeSelector: Option<Text>,
    tolerations: Option<seq<string>>,
    grace: Option<int64>,
    securityContext: Option<string>,
    containers: Option<seq<ContainerView>>,
    claimTemplate: Option<string>,
    plain: string)

  ghost function ReachAffinity(cell: Cell?<PodAffinity>): set<object>
    reads cell
  {
    At(cell) + if cell == null then {} else At(cell.value.topologyKey)
  }

  ghost function ViewAffinity(cell: Cell?<PodAffinity>): Option<Option<string>>
    reads ReachAffinity(cell), cell
  {
    if cell == null then None else Some(Read(cell.value.topologyKey))
  }

  ghost function ReachContainer(c: Container): set<object> {
    AtSlice(c.imagePullSecrets) + At(c.securityContext) + AtSlice(c.envs)
  }

  ghost function ViewContainer(c: Container): ContainerView
    reads ReachContainer(c)
  {
    ContainerView(ReadSlice(c.imagePullSecrets), Read(c.securityContext), ReadSlice(c.envs), c.plain)
  }

  ghost function Parts(containers: seq<Container>): set<object> {
    set i, o | 0 <= i < |containers| && o in ReachContainer(containers[i]) :: o
  }

  ghost function ViewContainers(containers: seq<Container>): (v: seq<ContainerView>)
    reads Parts(containers)
    ensures |v| == |containers|
    ensures forall i | 0 <= i < |v| :: v[i] == ViewContainer(containers[i])
  {
    if containers == [] then
      []
    else
      assert Parts(containers[..|containers| - 1]) <= Parts(containers);
      assert ReachContainer(containers[|containers| - 1]) <= Parts(containers);
      ViewContainers(containers[..|containers| - 1]) + [ViewContainer(containers[|containers| - 1])]
  }

  ghost function ReachContainers(slice: array?<Container>): set<object>
    reads slice
  {
    AtSlice(slice) + if slice == null then {} else Parts(slice[..])
  }

  ghost function ViewContainersAt(slice: array?<Container>): Option<seq<ContainerView>>
    reads slice, ReachContainers(slice)
  {
    if slice == null then None else Some(ViewContainers(slice[..]))
  }

  method CopyContainer(from: Container) returns (out: Container)
    ensures fresh(ReachContainer(out)) && allocated(ReachContainer(out)) && ViewContainer(out) == old(ViewContainer(from))
  {
    out := from;
    var imagePullSecrets := CopySlice(from.imagePullSecrets);
    out := out.(imagePullSecrets := imagePullSecrets);
    var securityContext := CopyCell(from.securityContext);
    out := out.(securityContext := securityContext);
    var envs := CopySlice(from.envs);
    out := out.(envs := envs);
  }

  method CopyAffinity(from: Cell?<PodAffinity>) returns (out: Cell?<PodAffinity>)
    ensures fresh(ReachAffinity(out)) && allocated(ReachAffinity(out)) && ViewAffinity(out) == old(ViewAffinity(from))
  {
    if from == null {
      return null;
    }
    var topologyKey := CopyCell(from.value.topologyKey);
    out := new Cell(PodAffinity(topologyKey));
  }

  twostate lemma ContainerKept(c: Container)
    requires unchanged(ReachContainer(c))
    ensures ViewContainer(c) == old(ViewContainer(c))
  {
  }

  lemma NoSliceInside(slice: array<Container>, c: Container)
    ensures slice !in ReachContainer(c) && allocated(ReachContainer(c))
  {
  }

  /** One turn of the loop: the new element is equal and new, and the earlier ones are as they were. */
  method CopyContainerInto(from: Container, fill: array<Container>, i: nat)
    requires i < fill.Length
    modifies fill
    ensures fresh(ReachContainer(fill[i])) && allocated(ReachContainer(fill[i]))
    ensures ViewContainer(fill[i]) == old(ViewContainer(from))
    ensures forall k | 0 <= k < i :: fill[k] == old(fill[k]) && ViewContainer(fill[k]) == old(ViewContainer(fill[k]))
  {
    hide ReachContainer, ViewContainer;
    var c := CopyContainer(from);
    label copied:
    forall k | 0 <= k < i ensures old(allocated(ReachContainer(fill[k]))) && fill !in ReachContainer(fill[k]) {
      NoSliceInside(fill, fill[k]);
    }
    NoSliceInside(fill, c);
    fill[i] := c;
    ContainerKept@copied(c);
    forall k | 0 <= k < i ensures ViewContainer(fill[k]) == old(ViewContainer(fill[k])) {
      ContainerKept(fill[k]);
    }
  }

  method CopyEachContainer(from: array<Container>) returns (out: array<Container>)
    ensures fresh(out) && out.Length == from.Length
    ensures forall k | 0 <= k < out.Length ::
              && fresh(ReachContainer(out[k])) && allocated(ReachContainer(out[k]))
              && ViewContainer(out[k]) == old(ViewContainer(from[k]))
  {
    hide ReachContainer, ViewContainer;
    out := new Container[from.Length](_ => Container(null, null, null, ""));
    for i := 0 to from.Length
      invariant forall k | 0 <= k < i :: fresh(ReachContainer(out[k])) && allocated(ReachContainer(out[k]))
      invariant forall k | 0 <= k < i :: ViewContainer(out[k]) == old(ViewContainer(from[k]))
    {
      assert old(allocated(ReachContainer(from[i]))) && out !in ReachContainer(from[i]) by { NoSliceInside(out, from[i]); }
      ContainerKept(from[i]);
      CopyContainerInto(from[i], out, i);
    }
  }

  method CopyContainers(from: array?<Container>) returns (out: array?<Container>)
    ensures fresh(ReachContainers(out)) && allocated(ReachContainers(out))
    ensures ViewContainersAt(out) == old(ViewContainersAt(from))
  {
    hide ReachContainer, ViewContainer, ViewContainers;
    if from == null {
      return null;
    }
    out := CopyEachContainer(from);
    assert ViewContainers(out[..]) == old(ViewContainers(from[..]));
  }

  ghost function ReachMaps(p: PodSpec): set<object> {
    At(p.annotation) + At(p.labels) + At(p.nodeSelector)
  }

  ghost function ViewMaps(p: PodSpec): (Option<Text>, Option<Text>, Option<Text>)
    reads ReachMaps(p)
  {
    (Read(p.annotation), Read(p.labels), Read(p.nodeSelector))
  }

  ghost function ReachLeaves(p: PodSpec): set<object> {
    AtSlice(p.tolerations) + At(p.grace) + At(p.securityContext) + At(p.claimTemplate)
  }

  ghost function ViewLeaves(p: PodSpec): (Option<seq<string>>, Option<int64>, Option<string>, Option<string>)
    reads ReachLeaves(p)
  {
    (ReadSlice(p.tolerations), Read(p.grace), Read(p.securityContext), Read(p.claimTemplate))
  }

  ghost function ReachPod(p: PodSpec): set<object>
    reads p.affinity, p.containers
  {
    ReachAffinity(p.affinity) + ReachMaps(p) + ReachLeaves(p) + ReachContainers(p.containers)
  }

  ghost function ViewPod(p: PodSpec): PodView
    reads p.affinity, p.containers, ReachPod(p)
  {
    var (annotation, labels, nodeSelector) := ViewMaps(p);
    var (tolerations, grace, securityContext, claimTemplate) := ViewLeaves(p);
    PodView(ViewAffinity(p.affinity), annotation, labels, nodeSelector, tolerations, grace, securityContext,
            ViewContainersAt(p.containers), claimTemplate, p.plain)
  }

  method CopyMaps(from: PodSpec) returns (out: PodSpec)
    ensures fresh(ReachMaps(out)) && allocated(ReachMaps(out)) && ViewMaps(out) == old(ViewMaps(from))
    ensures out == from.(annotation := out.annotation, labels := out.labels, nodeSelector := out.nodeSelector)
  {
    out := from;
    var annotation := CopyText(from.annotation);
    out := out.(annotation := annotation);
    var labels := CopyText(from.labels);
    out := out.(labels := labels);
    var nodeSelector := CopyText(from.nodeSelector);
    out := out.(nodeSelector := nodeSelector);
  }

  method CopyLeaves(from: PodSpec) returns (out: PodSpec)
    ensures fresh(ReachLeaves(out)) && allocated(ReachLeaves(out)) && ViewLeaves(out) == old(ViewLeaves(from))
    ensures out == from.(tolerations := out.tolerations, grace := out.grace, securityContext := out.securityContext,
                         claimTemplate := out.claimTemplate)
  {
    out := from;
    var tolerations := CopySlice(from.tolerations);
    out := out.(tolerations := tolerations);
    var grace := CopyCell(from.grace);
    out := out.(grace := grace);
    var securityContext := CopyCell(from.securityContext);
    out := out.(securityContext := securityContext);
    var claimTemplate := CopyCell(from.claimTemplate);
    out := out.(claimTemplate := claimTemplate);
  }

  twostate lemma AffinityKept(cell: Cell?<PodAffinity>)
    requires old(allocated(ReachAffinity(cell)))
    requires unchanged(old(ReachAffinity(cell)))
    ensures ReachAffinity(cell) == old(ReachAffinity(cell)) && ViewAffinity(cell) == old(ViewAffinity(cell))
  {
  }

  twostate lemma MapsKept(p: PodSpec)
    requires unchanged(ReachMaps(p))
    ensures ViewMaps(p) == old(ViewMaps(p))
  {
  }

  twostate lemma LeavesKept(p: PodSpec)
    requires unchanged(ReachLeaves(p))
    ensures ViewLeaves(p) == old(ViewLeaves(p))
  {
  }

  twostate lemma ContainersKept(slice: array?<Container>)
    requires old(allocated(ReachContainers(slice)))
    requires unchanged(old(ReachContainers(slice)))
    ensures ReachContainers(slice) == old(ReachContainers(slice)) && ViewContainersAt(slice) == old(ViewContainersAt(slice))
  {
    hide ReachContainer, ViewContainer;
    if slice != null {
      assert slice[..] == old(slice[..]);
      forall i | 0 <= i < slice.Length ensures ViewContainer(slice[i]) == old(ViewContainer(slice[i])) {
        assert ReachContainer(slice[i]) <= old(ReachContainers(slice)) by {
          assert old(slice[..])[i] == slice[i];
          PartReached(old(slice[..]), i);
        }
        ContainerKept(slice[i]);
      }
      assert ViewContainers(slice[..]) == old(ViewContainers(slice[..]));
    }
  }

  lemma PartReached(containers: seq<Container>, i: nat)
    requires i < |containers|
    ensures ReachContainer(containers[i]) <= Parts(containers)
  {
  }

  lemma PodAllocated(p: PodSpec)
    ensures allocated(ReachAffinity(p.affinity)) && allocated(ReachContainers(p.containers))
    ensures allocated(ReachMaps(p)) && allocated(ReachLeaves(p)) && allocated(ReachPod(p))
  {
  }

  lemma SameMaps(p: PodSpec, q: PodSpec)
    requires (p.annotation, p.labels, p.nodeSelector) == (q.annotation, q.labels, q.nodeSelector)
    ensures ReachMaps(p) == ReachMaps(q) && ViewMaps(p) == ViewMaps(q)
  {
  }

  lemma SameLeaves(p: PodSpec, q: PodSpec)
    requires (p.tolerations, p.grace, p.securityContext, p.claimTemplate)
          == (q.tolerations, q.grace, q.securityContext, q.claimTemplate)
    ensures ReachLeaves(p) == ReachLeaves(q) && ViewLeaves(p) == ViewLeaves(q)
  {
  }

  method CopyPod(from: PodSpec) returns (out: PodSpec)
    ensures fresh(ReachPod(out)) && allocated(ReachPod(out)) && ViewPod(out) == old(ViewPod(from))
  {
    hide ReachAffinity, ViewAffinity, ReachMaps, ViewMaps, ReachLeaves, ViewLeaves, ReachContainers, ViewContainersAt;
    PodAllocated(from);
    out := from;
    var affinity := CopyAffinity(from.affinity);
    out := out.(affinity := affinity);
    label affinity:
    MapsKept(from);
    SameMaps(from, out);
    out := CopyMaps(out);
    label maps:
    ghost var maps := out;
    LeavesKept(from);
    SameLeaves(from, out);
    out := CopyLeaves(out);
    label leaves:
    ghost var leaves := out;
    ContainersKept(from.containers);
    var containers := CopyContainers(from.containers);
    out := out.(containers := containers);
    AffinityKept@affinity(affinity);
    MapsKept@maps(maps);
    SameMaps(maps, out);
    LeavesKept@leaves(leaves);
    SameLeaves(leaves, out);
  }

  // ----- The cluster part -----

  datatype RollingUpdate = RollingUpdate(partition: Cell?<int32>, maxUnavailable: Cell?<string>)

  datatype UpdateStrategy = UpdateStrategy(kind: string, rolling: Cell?<RollingUpdate>)

  datatype MySQLGroupReplicationCluster =
    MySQLGroupReplicationCluster(podSpec: Cell?<PodSpec>, ports: array?<string>, updateStrategy: Cell?<UpdateStrategy>, plain: string)

  datatype RollingView = RollingView(partition: Option<int32>, maxUnavailable: Option<string>)

  datatype StrategyView = StrategyView(kind: string, rolling: Option<RollingView>)

  datatype MySQLView = MySQLView(podSpec: Option<PodView>, ports: Option<seq<string>>, updateStrategy: Option<StrategyView>, plain: string)

  ghost function ReachRolling(cell: Cell?<RollingUpdate>): set<object>
    reads cell
  {
    At(cell) + if cell == null then {} else At(cell.value.partition) + At(cell.value.maxUnavailable)
  }

  ghost function ViewRolling(cell: Cell?<RollingUpdate>): Option<RollingView>
    reads cell, ReachRolling(cell)
  {
    if cell == null then None else Some(RollingView(Read(cell.value.partition), Read(cell.value.maxUnavailable)))
  }

  ghost function ReachStrategy(cell: Cell?<UpdateStrategy>): set<object>
    reads cell, if cell == null then {} else At(cell.value.rolling)
  {
    At(cell) + if cell == null then {} else ReachRolling(cell.value.rolling)
  }

  ghost function ViewStrategy(cell: Cell?<UpdateStrategy>): Option<StrategyView>
    reads cell, if cell == null then {} else At(cell.value.rolling)
    reads ReachStrategy(cell)
  {
    if cell == null then None else Some(StrategyView(cell.value.kind, ViewRolling(cell.value.rolling)))
  }

  method CopyRolling(from: Cell?<RollingUpdate>) returns (out: Cell?<RollingUpdate>)
    ensures fresh(ReachRolling(out)) && allocated(ReachRolling(out)) && ViewRolling(out) == old(ViewRolling(from))
  {
    if from == null {
      return null;
    }
    var partition := CopyCell(from.value.partition);
    var maxUnavailable := CopyCell(from.value.maxUnavailable);
    out := new Cell(RollingUpdate(partition, maxUnavailable));
  }

  lemma StrategyAllocated(cell: Cell?<UpdateStrategy>)
    ensures allocated(ReachStrategy(cell))
  {
  }

  twostate lemma StrategyKept(cell: Cell?<UpdateStrategy>)
    requires old(allocated(ReachStrategy(cell)))
    requires unchanged(old(ReachStrategy(cell)))
    ensures ReachStrategy(cell) == old(ReachStrategy(cell)) && ViewStrategy(cell) == old(ViewStrategy(cell))
  {
  }

  method CopyStrategy(from: Cell?<UpdateStrategy>) returns (out: Cell?<UpdateStrategy>)
    ensures fresh(ReachStrategy(out)) && allocated(ReachStrategy(out)) && ViewStrategy(out) == old(ViewStrategy(from))
  {
    if from == null {
      return null;
    }
    var rolling := CopyRolling(from.value.rolling);
    out := new Cell(from.value.(rolling := rolling));
  }

  ghost function SpinePodAt(cell: Cell?<PodSpec>): set<object>
    reads cell
  {
    At(cell) + if cell == null then {} else At(cell.value.affinity) + AtSlice(cell.value.containers)
  }

  ghost function ReachPodAt(cell: Cell?<PodSpec>): set<object>
    reads cell, SpinePodAt(cell)
  {
    At(cell) + if cell == null then {} else ReachPod(cell.value)
  }

  ghost function ViewPodAt(cell: Cell?<PodSpec>): Option<PodView>
    reads cell, SpinePodAt(cell), ReachPodAt(cell)
  {
    if cell == null then None else Some(ViewPod(cell.value))
  }

  /** What nobody writes to reads as before. */
  twostate lemma PodKept(p: PodSpec)
    requires old(allocated(ReachPod(p)))
    requires unchanged(old(ReachPod(p)))
    ensures ReachPod(p) == old(ReachPod(p)) && ViewPod(p) == old(ViewPod(p))
  {
    hide ReachAffinity, ViewAffinity, ReachMaps, ViewMaps, ReachLeaves, ViewLeaves, ReachContainers, ViewContainersAt;
    AffinityKept(p.affinity);
    MapsKept(p);
    LeavesKept(p);
    ContainersKept(p.containers);
  }

  twostate lemma PodAtKept(cell: Cell?<PodSpec>)
    requires old(allocated(ReachPodAt(cell)))
    requires unchanged(old(ReachPodAt(cell)))
    ensures ReachPodAt(cell) == old(ReachPodAt(cell)) && ViewPodAt(cell) == old(ViewPodAt(cell))
  {
    hide ReachPod, ViewPod;
    if cell != null {
      assert old(ReachPod(cell.value)) <= old(ReachPodAt(cell));
      PodKept(cell.value);
    }
  }

  method CopyPodAt(from: Cell?<PodSpec>) returns (out: Cell?<PodSpec>)
    ensures fresh(ReachPodAt(out)) && allocated(ReachPodAt(out)) && ViewPodAt(out) == old(ViewPodAt(from))
  {
    hide ReachPod, ViewPod;
    if from == null {
      return null;
    }
    var pod := CopyPod(from.value);
    label copied:
    out := new Cell(pod);
    PodKept@copied(pod);
  }

  ghost function SpineStrategy(cell: Cell?<UpdateStrategy>): set<object>
    reads cell
  {
    At(cell) + if cell == null then {} else At(cell.value.rolling)
  }

  ghost function SpineCluster(c: MySQLGroupReplicationCluster): set<object>
    reads c.podSpec, c.updateStrategy
  {
    SpinePodAt(c.podSpec) + SpineStrategy(c.updateStrategy)
  }

  ghost function ReachCluster(c: MySQLGroupReplicationCluster): set<object>
    reads c.podSpec, c.updateStrategy, SpineCluster(c)
  {
    ReachPodAt(c.podSpec) + AtSlice(c.ports) + ReachStrategy(c.updateStrategy)
  }

  ghost function ViewCluster(c: MySQLGroupReplicationCluster): MySQLView
    reads c.podSpec, c.updateStrategy, SpineCluster(c), ReachCluster(c)
  {
    MySQLView(ViewPodAt(c.podSpec), ReadSlice(c.ports), ViewStrategy(c.updateStrategy), c.plain)
  }

  method CopyCluster(from: MySQLGroupReplicationCluster) returns (out: MySQLGroupReplicationCluster)
    ensures fresh(ReachCluster(out)) && allocated(ReachCluster(out)) && ViewCluster(out) == old(ViewCluster(from))
  {
    hide ReachPodAt, ViewPodAt, ReachStrategy, ViewStrategy;
    StrategyAllocated(from.updateStrategy);
    out := from;
    var podSpec := CopyPodAt(from.podSpec);
    out := out.(podSpec := podSpec);
    label copied:
    var ports := CopySlice(from.ports);
    out := out.(ports := ports);
    StrategyKept(from.updateStrategy);
    var updateStrategy := CopyStrategy(from.updateStrategy);
    out := out.(updateStrategy := updateStrategy);
    PodAtKept@copied(podSpec);
  }

  // ----- The proxy part -----

  datatype ServiceExpose = ServiceExpose(ranges: array?<string>, annotations: Cell?<Text>, labels: Cell?<Text>, plain: string)

  datatype Proxy = Proxy(enabled: bool, podSpec: PodSpec, expose: ServiceExpose)

  datatype ExposeView = ExposeView(ranges: Option<seq<string>>, annotations: Option<Text>, labels: Option<Text>, plain: string)

  datatype ProxyView = ProxyView(enabled: bool, podSpec: PodView, expose: ExposeView)

  ghost function ReachExpose(e: ServiceExpose): set<object> {
    AtSlice(e.ranges) + At(e.annotations) + At(e.labels)
  }

  ghost function ViewExpose(e: ServiceExpose): ExposeView
    reads ReachExpose(e)
  {
    ExposeView(ReadSlice(e.ranges), Read(e.annotations), Read(e.labels), e.plain)
  }

  twostate lemma ExposeKept(e: ServiceExpose)
    requires unchanged(ReachExpose(e))
    ensures ViewExpose(e) == old(ViewExpose(e))
  {
  }

  method CopyExpose(from: ServiceExpose) returns (out: ServiceExpose)
    ensures fresh(ReachExpose(out)) && allocated(ReachExpose(out)) && ViewExpose(out) == old(ViewExpose(from))
  {
    out := from;
    var ranges := CopySlice(from.ranges);
    out := out.(ranges := ranges);
    var annotations := CopyText(from.annotations);
    out := out.(annotations := annotations);
    var labels := CopyText(from.labels);
    out := out.(labels := labels);
  }

  ghost function ReachProxy(p: Proxy): set<object>
    reads p.podSpec.affinity, p.podSpec.containers
  {
    ReachPod(p.podSpec) + ReachExpose(p.expose)
  }

  ghost function ViewProxy(p: Proxy): ProxyView
    reads p.podSpec.affinity, p.podSpec.containers, ReachProxy(p)
  {
    ProxyView(p.enabled, ViewPod(p.podSpec), ViewExpose(p.expose))
  }

  method CopyProxy(from: Proxy) returns (out: Proxy)
    ensures fresh(ReachProxy(out)) && allocated(ReachProxy(out)) && ViewProxy(out) == old(ViewProxy(from))
  {
    hide ReachPod, ViewPod, ViewExpose;
    out := from;
    var podSpec := CopyPod(from.podSpec);
    out := out.(podSpec := podSpec);
    ExposeKept(from.expose);
    label copied:
    var expose := CopyExpose(from.expose);
    PodKept@copied(podSpec);
    out := out.(expose := expose);
  }

  // ----- The spec -----

  /** SchedulerBuckup and MetricsCollection have the same shape. */
  datatype Switch = Switch(enable: Cell?<bool>)

  ghost function ReachSwitch(cell: Cell?<Switch>): set<object>
    reads cell
  {
    At(cell) + if cell == null then {} else At(cell.value.enable)
  }

  ghost function ViewSwitch(cell: Cell?<Switch>): Option<Option<bool>>
    reads cell, ReachSwitch(cell)
  {
    if cell == null then None else Some(Read(cell.value.enable))
  }

  method CopySwitch(from: Cell?<Switch>) returns (out: Cell?<Switch>)
    ensures fresh(ReachSwitch(out)) && allocated(ReachSwitch(out)) && ViewSwitch(out) == old(ViewSwitch(from))
  {
    if from == null {
      return null;
    }
    var enable := CopyCell(from.value.enable);
    out := new Cell(Switch(enable));
  }

  ghost function SpineClusterAt(cell: Cell?<MySQLGroupReplicationCluster>): set<object>
    reads cell
  {
    At(cell) + if cell == null then {} else At(cell.value.podSpec) + At(cell.value.updateStrategy)
  }

  ghost function SpinesClusterAt(cell: Cell?<MySQLGroupReplicationCluster>): set<object>
    reads cell, SpineClusterAt(cell)
  {
    if cell == null then {} else SpineCluster(cell.value)
  }

  ghost function ReachClusterAt(cell: Cell?<MySQLGroupReplicationCluster>): set<object>
    reads cell, SpineClusterAt(cell), SpinesClusterAt(cell)
  {
    At(cell) + if cell == null then {} else ReachCluster(cell.value)
  }

  ghost function ViewClusterAt(cell: Cell?<MySQLGroupReplicationCluster>): Option<MySQLView>
    reads cell, SpineClusterAt(cell), SpinesClusterAt(cell), ReachClusterAt(cell)
  {
    if cell == null then None else Some(ViewCluster(cell.value))
  }

  twostate lemma ClusterKept(c: MySQLGroupReplicationCluster)
    requires old(allocated(ReachCluster(c)))
    requires unchanged(old(ReachCluster(c)))
    ensures ReachCluster(c) == old(ReachCluster(c)) && ViewCluster(c) == old(ViewCluster(c))
  {
    hide ReachPodAt, ViewPodAt, ReachStrategy, ViewStrategy;
    PodAtKept(c.podSpec);
    StrategyKept(c.updateStrategy);
  }

  twostate lemma ClusterAtKept(cell: Cell?<MySQLGroupReplicationCluster>)
    requires old(allocated(ReachClusterAt(cell)))
    requires unchanged(old(ReachClusterAt(cell)))
    ensures ReachClusterAt(cell) == old(ReachClusterAt(cell)) && ViewClusterAt(cell) == old(ViewClusterAt(cell))
  {
    hide ReachCluster, ViewCluster;
    if cell != null {
      assert old(ReachCluster(cell.value)) <= old(ReachClusterAt(cell));
      ClusterKept(cell.value);
    }
  }

  method CopyClusterAt(from: Cell?<MySQLGroupReplicationCluster>) returns (out: Cell?<MySQLGroupReplicationCluster>)
    ensures fresh(ReachClusterAt(out)) && allocated(ReachClusterAt(out))
    ensures ViewClusterAt(out) == old(ViewClusterAt(from))
  {
    hide ReachCluster, ViewCluster;
    if from == null {
      return null;
    }
    var cluster := CopyCluster(from.value);
    label copied:
    out := new Cell(cluster);
    ClusterKept@copied(cluster);
  }

  ghost function SpineProxyAt(cell: Cell?<Proxy>): set<object>
    reads cell
  {
    At(cell) + if cell == null then {} else At(cell.value.podSpec.affinity) + AtSlice(cell.value.podSpec.containers)
  }

  ghost function ReachProxyAt(cell: Cell?<Proxy>): set<object>
    reads cell, SpineProxyAt(cell)
  {
    At(cell) + if cell == null then {} else ReachProxy(cell.value)
  }

  ghost function ViewProxyAt(cell: Cell?<Proxy>): Option<ProxyView>
    reads cell, SpineProxyAt(cell), ReachProxyAt(cell)
  {
    if cell == null then None else Some(ViewProxy(cell.value))
  }

  twostate lemma ProxyKept(p: Proxy)
    requires old(allocated(ReachProxy(p)))
    requires unchanged(old(ReachProxy(p)))
    ensures ReachProxy(p) == old(ReachProxy(p)) && ViewProxy(p) == old(ViewProxy(p))
  {
    hide ReachPod, ViewPod, ReachExpose, ViewExpose;
    PodKept(p.podSpec);
    ExposeKept(p.expose);
  }

  twostate lemma ProxyAtKept(cell: Cell?<Proxy>)
    requires old(allocated(ReachProxyAt(cell)))
    requires unchanged(old(ReachProxyAt(cell)))
    ensures ReachProxyAt(cell) == old(ReachProxyAt(cell)) && ViewProxyAt(cell) == old(ViewProxyAt(cell))
  {
    hide ReachProxy, ViewProxy;
    if cell != null {
      assert old(ReachProxy(cell.value)) <= old(ReachProxyAt(cell));
      ProxyKept(cell.value);
    }
  }

  method CopyProxyAt(from: Cell?<Proxy>) returns (out: Cell?<Proxy>)
    ensures fresh(ReachProxyAt(out)) && allocated(ReachProxyAt(out)) && ViewProxyAt(out) == old(ViewProxyAt(from))
  {
    hide ReachProxy, ViewProxy;
    if from == null {
      return null;
    }
    var proxy := CopyProxy(from.value);
    label copied:
    out := new Cell(proxy);
    ProxyKept@copied(proxy);
  }

  datatype SpecRef = SpecRef(
    member: array?<MemberRef>,
    clusterSpec: Cell?<MySQLGroupReplicationCluster>,
    proxySpec: Cell?<Proxy>,
    schedulerBuckup: Cell?<Switch>,
    metricsCollection: Cell?<Switch>)

  /** Everything but the members. */
  datatype RestView = RestView(
    clusterSpec: Option<MySQLView>,
    proxySpec: Option<ProxyView>,
    schedulerBuckup: Option<Option<bool>>,
    metricsCollection: Option<Option<bool>>)

  datatype SpecView = SpecView(member: Option<seq<Member>>, rest: RestView)

  /** The cells that lead to further cells. */
  ghost function SpineRest(s: SpecRef): set<object>
    reads s.clusterSpec, SpineClusterAt(s.clusterSpec), s.proxySpec, s.schedulerBuckup, s.metricsCollection
  {
    SpineClusterAt(s.clusterSpec) + SpinesClusterAt(s.clusterSpec) + SpineProxyAt(s.proxySpec)
    + ReachSwitch(s.schedulerBuckup) + ReachSwitch(s.metricsCollection)
  }

  ghost function ReachRest(s: SpecRef): set<object>
    reads s.clusterSpec, SpineClusterAt(s.clusterSpec), s.proxySpec, s.schedulerBuckup, s.metricsCollection, SpineRest(s)
  {
    ReachClusterAt(s.clusterSpec) + ReachProxyAt(s.proxySpec)
    + ReachSwitch(s.schedulerBuckup) + ReachSwitch(s.metricsCollection)
  }

  ghost function ViewRest(s: SpecRef): RestView
    reads s.clusterSpec, SpineClusterAt(s.clusterSpec), s.proxySpec, s.schedulerBuckup, s.metricsCollection, SpineRest(s)
    reads ReachRest(s)
  {
    RestView(ViewClusterAt(s.clusterSpec), ViewProxyAt(s.proxySpec),
             ViewSwitch(s.schedulerBuckup), ViewSwitch(s.metricsCollection))
  }

  ghost function SizeCells(s: SpecRef): set<object>
    reads s.member
  {
    if s.member == null then {} else Sizes(s.member[..])
  }

  ghost function ViewSpec(s: SpecRef): SpecView
    reads s.member, SizeCells(s)
    reads s.clusterSpec, SpineClusterAt(s.clusterSpec), s.proxySpec, s.schedulerBuckup, s.metricsCollection, SpineRest(s)
    reads ReachRest(s)
  {
    SpecView(if s.member == null then None else Some(ViewMembers(s.member[..])), ViewRest(s))
  }

  lemma ProxyAllocated(cell: Cell?<Proxy>)
    ensures allocated(ReachProxyAt(cell))
  {
    hide ReachPod;
    if cell != null {
      PodAllocated(cell.value.podSpec);
    }
  }

  lemma ClusterAllocated(cell: Cell?<MySQLGroupReplicationCluster>)
    ensures allocated(ReachClusterAt(cell))
  {
    hide ReachPod, ReachStrategy;
    if cell != null {
      StrategyAllocated(cell.value.updateStrategy);
      if cell.value.podSpec != null {
        PodAllocated(cell.value.podSpec.value);
      }
    }
  }

  lemma RestAllocated(s: SpecRef)
    ensures allocated(ReachRest(s))
  {
    hide ReachClusterAt, ReachProxyAt, ReachSwitch;
    ClusterAllocated(s.clusterSpec);
    ProxyAllocated(s.proxySpec);
    SwitchAllocated(s.schedulerBuckup);
    SwitchAllocated(s.metricsCollection);
  }

  lemma SwitchAllocated(cell: Cell?<Switch>)
    ensures allocated(ReachSwitch(cell))
  {
  }

  twostate lemma SwitchKept(cell: Cell?<Switch>)
    requires unchanged(old(ReachSwitch(cell)))
    ensures ReachSwitch(cell) == old(ReachSwitch(cell)) && ViewSwitch(cell) == old(ViewSwitch(cell))
  {
  }

  method CopyRest(from: SpecRef) returns (out: SpecRef)
    ensures fresh(ReachRest(out)) && allocated(ReachRest(out)) && ViewRest(out) == old(ViewRest(from))
    ensures out.member == from.member
  {
    hide ReachClusterAt, ViewClusterAt, ReachProxyAt, ViewProxyAt, ReachSwitch, ViewSwitch;
    ProxyAllocated(from.proxySpec);
    SwitchAllocated(from.schedulerBuckup);
    SwitchAllocated(from.metricsCollection);
    out := from;
    var clusterSpec := CopyClusterAt(from.clusterSpec);
    out := out.(clusterSpec := clusterSpec);
    ProxyAtKept(from.proxySpec);
    label cluster:
    var proxySpec := CopyProxyAt(from.proxySpec);
    out := out.(proxySpec := proxySpec);
    SwitchKept(from.schedulerBuckup);
    label proxy:
    var schedulerBuckup := CopySwitch(from.schedulerBuckup);
    out := out.(schedulerBuckup := schedulerBuckup);
    SwitchKept(from.metricsCollection);
    label scheduler:
    var metricsCollection := CopySwitch(from.metricsCollection);
    out := out.(metricsCollection := metricsCollection);
    ClusterAtKept@cluster(clusterSpec);
    ProxyAtKept@proxy(proxySpec);
    SwitchKept@scheduler(schedulerBuckup);
  }

  twostate lemma RestKept(s: SpecRef)
    requires old(allocated(ReachRest(s)))
    requires unchanged(old(ReachRest(s)))
    ensures ReachRest(s) == old(ReachRest(s)) && ViewRest(s) == old(ViewRest(s))
  {
    hide ReachClusterAt, ViewClusterAt, ReachProxyAt, ViewProxyAt, ReachSwitch, ViewSwitch;
    ClusterAtKept(s.clusterSpec);
    ProxyAtKept(s.proxySpec);
    SwitchKept(s.schedulerBuckup);
    SwitchKept(s.metricsCollection);
  }

  twostate lemma MembersKept(members: array<MemberRef>)
    requires unchanged(members) && unchanged(old(Sizes(members[..])))
    ensures members[..] == old(members[..]) && ViewMembers(members[..]) == old(ViewMembers(members[..]))
  {
    forall i | 0 <= i < members.Length
      ensures ViewMember(members[i]) == old(ViewMember(members[i]))
    {
      var m := members[i];
      if m.size != null {
        assert old(members[..])[i] == m;
        assert m.size in old(Sizes(members[..]));
      }
    }
  }

  ghost function ReachMembers(s: SpecRef): set<object>
    reads s.member
  {
    AtSlice(s.member) + SizeCells(s)
  }

  /** Everything the spec refers to. */
  ghost function ReachSpec(s: SpecRef): set<object>
    reads s.member
    reads s.clusterSpec, SpineClusterAt(s.clusterSpec), s.proxySpec, s.schedulerBuckup, s.metricsCollection, SpineRest(s)
  {
    ReachMembers(s) + ReachRest(s)
  }

  lemma SpecAllocated(s: SpecRef)
    ensures allocated(ReachSpec(s))
  {
    hide ReachRest;
    RestAllocated(s);
  }

  twostate lemma SpecKept(s: SpecRef)
    requires old(allocated(ReachSpec(s)))
    requires unchanged(old(ReachSpec(s)))
    ensures ReachSpec(s) == old(ReachSpec(s)) && ViewSpec(s) == old(ViewSpec(s))
    ensures SizeCells(s) == old(SizeCells(s)) && ReachRest(s) == old(ReachRest(s))
    ensures s.member != null ==> s.member[..] == old(s.member[..])
  {
    hide ReachRest, ViewRest, ViewMembers, Sizes;
    RestKept(s);
    if s.member != null {
      assert unchanged(s.member);
      MembersKept(s.member);
    }
  }

  /** A copy reads the same and has everything to itself; sharing inside the original is not carried over. */
  method CopySpec(from: SpecRef) returns (out: SpecRef)
    ensures ViewSpec(out) == old(ViewSpec(from))
    ensures out.member != null ==> Apart(out.member[..])
    ensures fresh(ReachSpec(out)) && allocated(ReachSpec(out)) && SizeCells(out) !! ReachRest(out)
  {
    hide ViewMembers, ReachClusterAt, ViewClusterAt, ReachProxyAt, ViewProxyAt, ReachSwitch, ViewSwitch;
    ClusterAllocated(from.clusterSpec);
    ProxyAllocated(from.proxySpec);
    SwitchAllocated(from.schedulerBuckup);
    SwitchAllocated(from.metricsCollection);
    out := from;
    if from.member != null {
      var member := CopyMembers(from.member);
      out := out.(member := member);
    }
    ClusterAtKept(from.clusterSpec);
    ProxyAtKept(from.proxySpec);
    SwitchKept(from.schedulerBuckup);
    SwitchKept(from.metricsCollection);
    label members:
    ghost var sizes := SizeCells(out);
    out := CopyRest(out);
    if out.member != null {
      MembersKept@members(out.member);
    }
    assert SizeCells(out) == sizes;
  }
}

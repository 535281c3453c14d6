/**
 What ends up in the store: the contents of the children, field by field, in terms of the resource they were made for,
 and what teardown leaves of the resource itself.
 */
module Contents {
  import opened Api
  import opened Kube
  import opened Names
  import opened InstancePass
  import opened AnyEnvironment
  import opened Fleet
  import opened Convergence
  import opened Teardown
  import opened Lifecycle
  import opened Calls

  // ----- What a child depends on -----

  /** Two resources want the same child exactly if they gave its constructor the same. */
  lemma DesiredIff(id: Id, a: Obj, b: Obj)
    ensures Desired(id, a, Workload) == Desired(id, b, Workload) <==> a.uid == b.uid && SpecOf(a) == SpecOf(b)
    ensures Desired(id, a, Front) == Desired(id, b, Front) <==> a.uid == b.uid && SpecOf(a).service == SpecOf(b).service
    ensures Desired(id, a, Config) == Desired(id, b, Config)
    ensures NewClaim(a) == NewClaim(b) <==> SpecOf(a).storageClass == SpecOf(b).storageClass && SpecOf(a).pod == SpecOf(b).pod
  {
  }

  /** The child of this name that the resource wants, written out. */
  function Content(id: Id, cr: Obj, spec: InstanceSpec, child: Child): Draft {
    var owner := Some(Owner(InstanceKind, id.name, cr.uid));
    var name := map["app.kubernetes.io/name" := id.name];
    match child
    case Workload =>
      Draft([], Meta(map[], name["app.kubernetes.io/instance" := id.name], owner), PodTemplate(id.name + "config", spec))
    case Front => Draft([], Meta(map[], name, owner), Ports(id.name, spec.service, false))
    case Config => Draft([], NO_META, MyCnf(Settings(0, "greatsql", "", "1G")))
  }

  lemma DesiredContent(id: Id, cr: Obj, child: Child)
    requires cr.body.Instance?
    ensures Desired(id, cr, child) == Content(id, cr, cr.body.spec, child)
    ensures NewClaim(cr) == Draft([], NO_META, Storage(cr.body.spec.storageClass, cr.body.spec.pod))
  {
    assert map["app.kubernetes.io/name" := id.name]["app.kubernetes.io/instance" := id.name]
        == map["app.kubernetes.io/name" := id.name, "app.kubernetes.io/instance" := id.name];
  }

  /** The key holds exactly this content for the stored resource. */
  ghost predicate Shows(s: Store, id: Id, child: Child, spec: InstanceSpec) {
    && Alive(s, InstanceKey(id)) && Alive(s, ChildName(id, child))
    && DraftOf(ObjAt(s, ChildName(id, child))) == Content(id, ObjAt(s, InstanceKey(id)), spec, child)
  }

  lemma CellOfChild(s: Store, id: Id, child: Child)
    ensures CellAt(s, ChildName(id, child)) == CellFor(SceneOf(s, id), child)
  {
    assert id.name + "" == id.name;
  }

  lemma EqualShows(s: Store, id: Id, child: Child)
    requires Alive(s, InstanceKey(id)) && ObjAt(s, InstanceKey(id)).body.Instance?
    requires Equal(CellFor(SceneOf(s, id), child), Desired(id, ObjAt(s, InstanceKey(id)), child))
    ensures Shows(s, id, child, ObjAt(s, InstanceKey(id)).body.spec)
  {
    hide Desired, Content, ChildName, CellFor, SceneOf;
    DesiredContent(id, ObjAt(s, InstanceKey(id)), child);
    CellOfChild(s, id, child);
  }

  // ----- Quiet passes -----

  lemma LiveResource(s: Store, id: Id)
    requires Live(SceneOf(s, id))
    ensures Alive(s, InstanceKey(id)) && Cr(SceneOf(s, id)) == ObjAt(s, InstanceKey(id)) && Cr(SceneOf(s, id)).body.Instance?
  {
  }

  /** Settled means settled on the contents: Deployment, Service and ConfigMap are those of the stored spec. */
  lemma SettledShows(s: Store, id: Id, child: Child)
    requires Settled(SceneOf(s, id), id)
    ensures Alive(s, InstanceKey(id)) && ObjAt(s, InstanceKey(id)).body.Instance?
    ensures Shows(s, id, child, ObjAt(s, InstanceKey(id)).body.spec)
  {
    hide SceneOf, Shows, Equal, Desired, CellFor;
    LiveResource(s, id);
    EqualShows(s, id, child);
  }

  /** What repeated passes settle on: whatever was there before, the contents of the spec that the resource has had all along. */
  lemma ConvergesTo(s: Store, id: Id, n: nat, child: Child)
    requires Live(SceneOf(s, id)) && Good(SceneOf(s, id)) && n >= 4
    ensures var t := Passes(s, id, n); var spec := SpecOf(ObjAt(s, InstanceKey(id)));
            Alive(t, InstanceKey(id)) && SpecOf(ObjAt(t, InstanceKey(id))) == spec && Shows(t, id, child, spec)
  {
    hide SceneOf, Settled, Good, Live, Shows, Passes;
    Converges(s, id);
    assert SettledAfter(s, id, n);
    var t := Passes(s, id, n);
    SettledShows(t, id, child);
    PassesKeepSpec(s, id, n);
    LiveResource(s, id);
    SettledIsLive(SceneOf(t, id), id);
    LiveResource(t, id);
  }

  lemma {:induction false} PassesKeepSpec(s: Store, id: Id, n: nat)
    requires Live(SceneOf(s, id))
    ensures SameInstance(SceneOf(s, id), SceneOf(Passes(s, id, n), id))
  {
    hide SceneOf, Live, Run, Round, Good;
    if n > 0 {
      PassesKeepSpec(s, id, n - 1);
      var t := Passes(s, id, n - 1);
      PassIsRound(t, id);
      RoundKeepsSpec(SceneOf(t, id), id);
    }
  }

  lemma RoundKeepsSpec(sc: Scene, id: Id)
    requires Live(sc)
    ensures SameInstance(sc, Round(sc, id))
  {
    hide Live, Round, Rank, Settled;
    if Good(sc) {
      GoodRound(sc, id);
    } else {
      BadRound(sc, id);
    }
  }

  /** A Deployment that is there and staying has the resource's spec after a single pass, whatever it had before. */
  lemma DeploymentFollows(s: Store, id: Id)
    requires Live(SceneOf(s, id)) && Staying(CellAt(s, DeploymentKey(id)))
    ensures var t := Run(s, Begin(id), []).0; var spec := SpecOf(ObjAt(s, InstanceKey(id)));
            Alive(t, InstanceKey(id)) && SpecOf(ObjAt(t, InstanceKey(id))) == spec && Shows(t, id, Workload, spec)
  {
    hide Run, Play, Tend, Shows, Equal, Desired, WithAnnotation, WithFinalizer;
    var sc := SceneOf(s, id);
    var t := Run(s, Begin(id), []).0;
    PassIsRound(s, id);
    RoundKeepsSpec(sc, id);
    TendingRound(sc, id);
    var sc1 := WithAnnotation(WithFinalizer(sc));
    assert sc1 == sc.(instance := sc1.instance) by { TendingElsewhere(sc); }
    TendFirst(sc1, id);
    SameDesired(sc1, Round(sc, id), id);
    LiveResource(s, id);
    LiveResource(t, id);
    EqualShows(t, id, Workload);
  }

  lemma TendFirst(sc: Scene, id: Id)
    requires Live(sc) && Staying(sc.workload)
    ensures var r := Tend(sc, id, Cr(sc)).0; r.instance == sc.instance && Equal(r.workload, Desired(id, Cr(sc), Workload))
    ensures Tend(sc, id, Cr(sc)).0.instance == sc.instance
    ensures SameInstance(sc, Tend(sc, id, Cr(sc)).0)
  {
    hide Desired, Swapped;
    SwappedChild(sc, id, Workload);
    TendRank(sc, id);
  }

  /** A user's edit of a settled resource: any new spec that is not rejected, with the finalizer left on. */
  predicate Edit(o: Obj, version: nat, d: Draft) {
    && (version == 0 || version == o.version)
    && "finalizer.greatsql.cn" in d.finalizers && d.body.Instance? && !Rejected(d.body.spec)
  }

  ghost function AfterEdit(s: Store, id: Id, version: nat, d: Draft): Store {
    Apply(s, Request(InstanceKey(id), Update(version, d))).0
  }

  lemma EditServed(c: Cell, version: nat, d: Draft)
    requires ValidCell(c) && Staying(c) && c.live.value.body.Instance? && Edit(c.live.value, version, d)
    ensures var e := Serve(c, Update(version, d)).0;
            && ValidCell(e) && Staying(e) && e.live.value.body.Instance?
            && e.live.value.body.spec == d.body.spec && e.live.value.uid == c.live.value.uid
  {
  }

  lemma EditedLive(s: Store, id: Id, version: nat, d: Draft)
    requires Settled(SceneOf(s, id), id) && Edit(ObjAt(s, InstanceKey(id)), version, d)
    ensures var t := AfterEdit(s, id, version, d);
            && Live(SceneOf(t, id)) && SpecOf(ObjAt(t, InstanceKey(id))) == d.body.spec
            && ObjAt(t, InstanceKey(id)).uid == ObjAt(s, InstanceKey(id)).uid
            && CellAt(t, DeploymentKey(id)) == CellAt(s, DeploymentKey(id)) && Staying(CellAt(t, DeploymentKey(id)))
            && SceneOf(t, id) == SceneOf(s, id).(instance := CellAt(t, InstanceKey(id)))
  {
    hide Serve, Desired;
    ApplyElsewhere(s, Request(InstanceKey(id), Update(version, d)));
    ApplyAt(s, Request(InstanceKey(id), Update(version, d)), InstanceKey(id));
    EditServed(CellAt(s, InstanceKey(id)), version, d);
    SettledIsLive(SceneOf(s, id), id);
    SwappedChild(SceneOf(s, id), id, Workload);
  }

  /**
   A spec change reaches the children. The next pass puts exactly the new spec into the Deployment; it reports an error
   exactly if the spec did change. From the fourth pass on everything is as the new spec wants it.
   */
  lemma EditReaches(s: Store, id: Id, version: nat, d: Draft)
    requires Settled(SceneOf(s, id), id) && Edit(ObjAt(s, InstanceKey(id)), version, d)
    ensures var t := AfterEdit(s, id, version, d); var (u, q) := Run(t, Begin(id), []);
            && Shows(u, id, Workload, d.body.spec)
            && q.pc == Done(d.body.spec != SpecOf(ObjAt(s, InstanceKey(id))))
            && (forall n: nat, child: Child | n >= 4 :: Shows(Passes(t, id, n), id, child, d.body.spec))
  {
    hide Run, Settled, Live, Shows, SceneOf, Passes, Rank;
    LiveFromSettled(s, id);
    EditedLive(s, id, version, d);
    var t := AfterEdit(s, id, version, d);
    DeploymentFollows(t, id);
    EditIsOff(s, id, version, d);
    assert Good(SceneOf(t, id)) by { StayingIsGood(t, id); }
    Converges(t, id);
    assert Passes(t, id, 0) == t by { NoPasses(t, id); }
    forall n: nat, child: Child | n >= 4 ensures Shows(Passes(t, id, n), id, child, d.body.spec) {
      ConvergesTo(t, id, n, child);
    }
  }

  lemma NoPasses(s: Store, id: Id)
    ensures Passes(s, id, 0) == s
  {
  }

  lemma LiveFromSettled(s: Store, id: Id)
    requires Settled(SceneOf(s, id), id)
    ensures Alive(s, InstanceKey(id))
  {
  }

  lemma StayingIsGood(s: Store, id: Id)
    requires Staying(CellAt(s, DeploymentKey(id)))
    ensures Good(SceneOf(s, id))
  {
  }

  /** Right after the edit the Deployment is off exactly if the spec changed, and then so may be the Service. */
  lemma EditIsOff(s: Store, id: Id, version: nat, d: Draft)
    requires Settled(SceneOf(s, id), id) && Edit(ObjAt(s, InstanceKey(id)), version, d)
    ensures var sc := SceneOf(AfterEdit(s, id, version, d), id);
            Live(sc) && (Rank(sc, id) > 0 <==> d.body.spec != SpecOf(ObjAt(s, InstanceKey(id))))
  {
    hide Desired, Serve, AfterEdit, Edit;
    EditedLive(s, id, version, d);
    var t := AfterEdit(s, id, version, d);
    var a, b := ObjAt(s, InstanceKey(id)), ObjAt(t, InstanceKey(id));
    DesiredIff(id, a, b);
    assert forall child: Child :: Equal(CellFor(SceneOf(s, id), child), Desired(id, a, child));
    assert CellFor(SceneOf(s, id), Workload) == CellFor(SceneOf(t, id), Workload);
    assert CellFor(SceneOf(s, id), Front) == CellFor(SceneOf(t, id), Front);
    assert CellFor(SceneOf(s, id), Config) == CellFor(SceneOf(t, id), Config);
  }

  // ----- The first pass -----

  /** A new resource: what the first pass leaves of it and of all four children, from the user's draft. */
  lemma FirstPassContents(s: Store, id: Id, d: Draft, child: Child)
    requires Valid(s) && Untouched(s, id) && FreshDraft(d)
    ensures var u := Reconciled(Created(s, id, d), id);
            && Alive(u, InstanceKey(id)) && ObjAt(u, InstanceKey(id)).body.Instance?
            && ObjAt(u, InstanceKey(id)).body.spec == d.body.spec
            && ObjAt(u, InstanceKey(id)).finalizers == ["finalizer.greatsql.cn"]
            && "spec" in ObjAt(u, InstanceKey(id)).meta.annotations
            && ObjAt(u, InstanceKey(id)).meta.annotations["spec"] == Json(d.body.spec)
            && Shows(u, id, child, d.body.spec)
            && var claim := CellAt(u, Named(id, ClaimKind, "db"));
               claim.live.Some? && DraftOf(claim.live.value) == Draft([], NO_META, Storage(d.body.spec.storageClass, d.body.spec.pod))
  {
    hide Run, Play, Settled, Desired, Shows, Made, SceneOf, Live, WithFinalizer;
    var t := Created(s, id, d);
    var u := Reconciled(t, id);
    UntouchedScene(s, id);
    CreatedLive(s, id, d);
    FirstPass(s, id, d);
    CreatedSpec(s, id, d);
    LiveResource(t, id);
    FirstRound(s, id, d);
    SettledShows(u, id, child);
    SettledAnnotated(u, id);
    DesiredContent(id, ObjAt(t, InstanceKey(id)), Config);
    MadeCell(CellAt(t, ClaimKey(id)), NewClaim(ObjAt(t, InstanceKey(id))));
    assert Named(id, ClaimKind, "db") == ClaimKey(id);
  }

  lemma CreatedSpec(s: Store, id: Id, d: Draft)
    requires FreshDraft(d) && !Alive(s, InstanceKey(id))
    ensures var t := Created(s, id, d);
            Alive(t, InstanceKey(id)) && ObjAt(t, InstanceKey(id)).body.Instance? && ObjAt(t, InstanceKey(id)).body.spec == d.body.spec
  {
    ApplyAt(s, Request(InstanceKey(id), Create(d)), InstanceKey(id));
  }

  lemma FirstRound(s: Store, id: Id, d: Draft)
    requires Valid(s) && Untouched(s, id) && FreshDraft(d)
    ensures var t := Created(s, id, d); var u := Reconciled(t, id);
            && Live(SceneOf(t, id)) && SameInstance(SceneOf(t, id), SceneOf(u, id)) && Settled(SceneOf(u, id), id)
            && CellAt(u, ClaimKey(id)) == Made(CellAt(t, ClaimKey(id)), NewClaim(Cr(SceneOf(t, id))))
            && CellAt(t, ClaimKey(id)).live.None?
            && Cr(SceneOf(u, id)).finalizers == [FINALIZER]
  {
    hide Run, Play, Settled, Desired, Valid, Made;
    UntouchedScene(s, id);
    CreatedLive(s, id, d);
    FirstPass(s, id, d);
    var t := Created(s, id, d);
    MakingRound(SceneOf(t, id), id);
    PassIsRound(t, id);
  }

  lemma SettledAnnotated(s: Store, id: Id)
    requires Settled(SceneOf(s, id), id)
    ensures Alive(s, InstanceKey(id)) && ObjAt(s, InstanceKey(id)) == Cr(SceneOf(s, id))
    ensures var o := ObjAt(s, InstanceKey(id)); "spec" in o.meta.annotations && o.meta.annotations["spec"] == Json(SpecOf(o))
  {
  }

  // ----- Teardown -----

  /** The objects that teardown deletes, by the spec of the resource. */
  ghost predicate Doomed(id: Id, spec: InstanceSpec, k: Key) {
    || k == Named(id, DeploymentKind, "") || k == Named(id, ServiceKind, "") || k == Named(id, ConfigMapKind, "config")
    || exists i: nat :: HasClaim(spec, i) && k == Named(id, ClaimKind, "-db-" + Decimal(i))
  }

  /** A deleted object goes, or is marked for deletion if a finalizer holds it and it is not marked yet. */
  ghost predicate Deletion(c: Cell, d: Cell) {
    match c.live
    case None => d == c
    case Some(o) =>
      if o.finalizers == [] then d.live == None
      else if o.deleting then d == c
      else d.live == Some(o.(deleting := true, version := d.clock))
  }

  lemma GoneIsDeletion(c: Cell)
    ensures Deletion(c, Gone(c))
  {
  }

  lemma HitIffDoomed(id: Id, cr: Obj, k: Key)
    ensures Hit(id, cr, Targets(cr), k) <==> Doomed(id, SpecOf(cr), k)
  {
    assert id.name + "" == id.name;
    if Doomed(id, SpecOf(cr), k) {
      if i: nat :| HasClaim(SpecOf(cr), i) && k == Named(id, ClaimKind, "-db-" + Decimal(i)) {
        ClaimName(id, i);
        assert Target(id, cr, i) == k;
      } else {
        assert Target(id, cr, Claims(cr)) == DeploymentKey(id) && Target(id, cr, Claims(cr) + 1) == ServiceKey(id)
            && Target(id, cr, Claims(cr) + 2) == OldConfigKey(id);
      }
    }
    if Hit(id, cr, Targets(cr), k) {
      var i: nat :| i < Targets(cr) && Target(id, cr, i) == k;
      if i < Claims(cr) {
        ClaimName(id, i);
        assert HasClaim(SpecOf(cr), i);
      }
    }
  }

  /** The targets that the finalizer guard speaks of are these. */
  lemma GuardedTargets(p: Pass, k: Key)
    ensures IsTarget(p, k) <==> Doomed(p.id, SpecOf(p.cr), k)
  {
    assert p.id.name + "" == p.id.name;
    if i: nat :| HasClaim(SpecOf(p.cr), i) && k == Named(p.id, ClaimKind, "-db-" + Decimal(i)) {
      ClaimName(p.id, i);
      assert i < GetSize(SpecOf(p.cr));
    }
    if i: nat :| i < GetSize(SpecOf(p.cr)) && k == OldClaimKey(p.id, i) {
      ClaimName(p.id, i);
      assert HasClaim(SpecOf(p.cr), i);
    }
  }

  lemma ClaimName(id: Id, i: nat)
    ensures Named(id, ClaimKind, "-db-" + Decimal(i)) == OldClaimKey(id, i)
  {
    assert id.name + ("-db-" + Decimal(i)) == id.name + "-db-" + Decimal(i);
  }

  lemma FinalizerOff(s: Store, p: Pass)
    requires Valid(s) && p.pc.DropFinalizer? && Guards(p.cr) && p.cr.deleting
    requires Alive(s, InstanceKey(p.id)) && ObjAt(s, InstanceKey(p.id)) == p.cr
    ensures var t := Tick(s, p).0; var left := Without(p.cr.finalizers, "finalizer.greatsql.cn"); var c := CellAt(t, InstanceKey(p.id));
            c.live == if left == [] then None else Some(p.cr.(finalizers := left, version := c.clock))
  {
    hide Without;
    ApplyAt(s, Ask(p), InstanceKey(p.id));
    assert FINALIZER !in Without(p.cr.finalizers, FINALIZER);
    assert !AddsFinalizer(Without(p.cr.finalizers, FINALIZER), p.cr.finalizers);
  }

  /**
   What an undisturbed pass leaves of a store with a resource marked for deletion, key by key: the targets are deleted, the
   resource loses the finalizer and nothing else, and goes if that was its last; everything else is as it was.
   */
  lemma TeardownOutcome(s: Store, id: Id, k: Key)
    requires Valid(s) && Condemned(s, id)
    ensures var t, o := Run(s, Begin(id), []).0, ObjAt(s, InstanceKey(id));
            var left := Without(o.finalizers, "finalizer.greatsql.cn"); var c := CellAt(t, k);
            if k == InstanceKey(id) then
              c.live == (if left == [] then None else Some(o.(finalizers := left, version := c.clock)))
            else if Doomed(id, SpecOf(o), k) then
              Deletion(CellAt(s, k), c)
            else
              c == CellAt(s, k)
  {
    hide Run, Tick, Deleted, Valid, Hit, Target, Gone, Doomed, Deletion, Without;
    var cr := ObjAt(s, InstanceKey(id));
    var t := Deleted(s, id, cr, Targets(cr));
    RunCondemned(s, id);
    DeletedCondemned(s, id, cr, Targets(cr));
    DeletedValid(s, id, cr, Targets(cr));
    DropTick(t, At(id, cr, Targets(cr)));
    FinalizerOff(t, At(id, cr, Targets(cr)));
    DeletedAt(s, id, cr, Targets(cr), k);
    HitIffDoomed(id, cr, k);
    GoneIsDeletion(CellAt(s, k));
  }
}

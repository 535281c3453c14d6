/**
 The whole life of a SingleInstance: created, reconciled, deleted, torn down, and perhaps created again.
 */
module Lifecycle {
  import opened Api
  import opened Kube
  import opened Names
  import opened InstancePass
  import opened AnyEnvironment
  import opened Fleet
  import opened Convergence
  import opened Teardown

  ghost predicate InScene(id: Id, k: Key) {
    k == InstanceKey(id) || k == ConfigKey(id) || k == ClaimKey(id) || k == DeploymentKey(id) || k == ServiceKey(id)
  }

  lemma SceneCall(s: Store, p: Pass, k: Key)
    requires !p.pc.Done? && PlaceOf(p.pc) != Elsewhere && !InScene(p.id, k)
    ensures CellAt(Apply(s, Ask(p)).0, k) == CellAt(s, k)
  {
    ApplyElsewhere(s, Ask(p));
  }

  /** A quiet pass that never enters teardown leaves every key outside its scene alone. */
  lemma {:induction false} PlayElsewhere(s: Store, p: Pass, k: Key)
    requires Play(SceneOf(s, p.id), p).1.pc.Done? && !InScene(p.id, k)
    ensures CellAt(Run(s, p, []).0, k) == CellAt(s, k)
    decreases Stage(p.pc), ClaimsLeft(p)
  {
    hide Ask, Resume, Serve, SceneOf, Stage, ClaimsLeft, Shift, CellIn, InScene;
    if !p.pc.Done? {
      var (t, reply) := Apply(s, Ask(p));
      assert ApplyAll(s, []) == s;
      assert Answer(s, Ask(p), Next([])) == (t, reply);
      SceneAfter(s, p);
      ResumeDescends(p, reply);
      ResumeId(p, reply);
      SceneCall(s, p, k);
      PlayElsewhere(t, Resume(p, reply), k);
    }
  }

  /** A custom resource as a user writes it: valid, without finalizers. */
  predicate FreshDraft(d: Draft) {
    d.finalizers == [] && d.body.Instance? && ValidSpec(d.body.spec)
  }

  ghost predicate Untouched(s: Store, id: Id) {
    forall k | InstanceOwns(id, k) :: !Alive(s, k)
  }

  ghost function Created(s: Store, id: Id, d: Draft): Store {
    Apply(s, Request(InstanceKey(id), Create(d))).0
  }

  ghost function Reconciled(s: Store, id: Id): Store {
    Run(s, Begin(id), []).0
  }

  ghost function DeletedByUser(s: Store, id: Id): Store {
    Apply(s, Request(InstanceKey(id), Delete)).0
  }

  lemma CreatedLive(s: Store, id: Id, d: Draft)
    requires Valid(s) && FreshDraft(d) && !Alive(s, InstanceKey(id))
    ensures var t, sc := Created(s, id, d), SceneOf(Created(s, id, d), id);
            && Valid(t) && Live(sc) && Cr(sc).finalizers == []
            && (forall k | k != InstanceKey(id) :: CellAt(t, k) == CellAt(s, k))
  {
    ApplyEvolves(s, Request(InstanceKey(id), Create(d)));
    ApplyElsewhere(s, Request(InstanceKey(id), Create(d)));
    SceneValid(Created(s, id, d), id);
  }

  lemma SceneValid(s: Store, id: Id)
    requires Valid(s)
    ensures ValidScene(SceneOf(s, id)) && ValidCell(CellAt(s, ClaimKey(id)))
  {
  }

  lemma {:induction false} RunValid(s: Store, p: Pass)
    requires Valid(s)
    ensures Valid(Run(s, p, []).0)
    decreases Stage(p.pc), ClaimsLeft(p)
  {
    hide Ask, Resume, Apply, Valid, Evolves, Stage, ClaimsLeft;
    if !p.pc.Done? {
      var (t, reply) := Apply(s, Ask(p));
      assert ApplyAll(s, []) == s;
      assert Answer(s, Ask(p), Next([])) == (t, reply);
      ApplyEvolves(s, Ask(p));
      ResumeDescends(p, reply);
      RunValid(t, Resume(p, reply));
    }
  }

  ghost predicate AliveWithout(s: Store, k: Key) {
    Alive(s, k) && ObjAt(s, k).finalizers == []
  }

  /** The first pass creates everything, succeeds, and settles. */
  lemma FirstPass(s: Store, id: Id, d: Draft)
    requires Valid(s) && Untouched(s, id) && FreshDraft(d)
    ensures var t := Created(s, id, d); var u := Reconciled(t, id);
            && Valid(u) && Run(t, Begin(id), []).1.pc == Done(false)
            && Settled(SceneOf(u, id), id) && Cr(SceneOf(u, id)).finalizers == [FINALIZER]
            && AliveWithout(u, DeploymentKey(id)) && AliveWithout(u, ServiceKey(id)) && AliveWithout(u, ConfigKey(id))
            && Alive(u, ClaimKey(id))
            && (forall k | !InScene(id, k) :: CellAt(u, k) == CellAt(s, k))
  {
    hide Run, Play, Settled, Desired, Valid;
    var t := Created(s, id, d);
    var sc := SceneOf(t, id);
    UntouchedScene(s, id);
    CreatedLive(s, id, d);
    MakingRound(sc, id);
    PassIsRound(t, id);
    RunValid(t, Begin(id));
    assert Cr(WithFinalizer(sc)).finalizers == [FINALIZER] by { WithFinalizerList(sc); }
    SettledChildren(SceneOf(Reconciled(t, id), id), id);
    forall k | !InScene(id, k) ensures CellAt(Reconciled(t, id), k) == CellAt(s, k) {
      PlayElsewhere(t, Begin(id), k);
    }
  }

  lemma UntouchedScene(s: Store, id: Id)
    requires Untouched(s, id)
    ensures !Alive(s, InstanceKey(id)) && !Alive(s, ConfigKey(id)) && !Alive(s, ClaimKey(id))
    ensures !Alive(s, DeploymentKey(id)) && !Alive(s, ServiceKey(id))
  {
    assert InstanceOwns(id, InstanceKey(id)) && InstanceOwns(id, ConfigKey(id)) && InstanceOwns(id, ClaimKey(id));
    assert InstanceOwns(id, DeploymentKey(id)) && InstanceOwns(id, ServiceKey(id));
  }

  lemma WithFinalizerList(sc: Scene)
    requires Live(sc) && Cr(sc).finalizers == []
    ensures Cr(WithFinalizer(sc)).finalizers == [FINALIZER]
  {
    WriteBack(sc.instance, Cr(sc).(finalizers := [] + [FINALIZER]));
  }

  lemma SettledChildren(sc: Scene, id: Id)
    requires Settled(sc, id)
    ensures sc.workload.live.Some? && sc.workload.live.value.finalizers == []
    ensures sc.front.live.Some? && sc.front.live.value.finalizers == []
    ensures sc.config.live.Some? && sc.config.live.value.finalizers == []
  {
    hide Desired;
    DesiredDraft(id, Cr(sc), Workload);
    DesiredDraft(id, Cr(sc), Front);
    DesiredDraft(id, Cr(sc), Config);
    assert CellFor(sc, Workload) == sc.workload && CellFor(sc, Front) == sc.front && CellFor(sc, Config) == sc.config;
  }

  /** Deletion by the user only marks the custom resource, because the finalizer holds it. */
  lemma Marked(s: Store, id: Id)
    requires Valid(s) && Guarded(s, id)
    ensures var t := DeletedByUser(s, id);
            && Valid(t) && Condemned(t, id) && ObjAt(t, InstanceKey(id)).finalizers == ObjAt(s, InstanceKey(id)).finalizers
            && (forall k | k != InstanceKey(id) :: CellAt(t, k) == CellAt(s, k))
  {
    ApplyEvolves(s, Request(InstanceKey(id), Delete));
    ApplyElsewhere(s, Request(InstanceKey(id), Delete));
  }

  /** Which keys teardown hits: all it owns except the ConfigMap and the claim that were created. */
  lemma HitsOwned(id: Id, cr: Obj, k: Key)
    ensures k == DeploymentKey(id) || k == ServiceKey(id) ==> Hit(id, cr, Targets(cr), k)
    ensures Hit(id, cr, Targets(cr), k) ==> InstanceOwns(id, k) && k != ConfigKey(id) && k != ClaimKey(id)
  {
    assert Target(id, cr, Claims(cr)) == DeploymentKey(id) && Target(id, cr, Claims(cr) + 1) == ServiceKey(id);
    EndsInLetter(id);
    assert |OldConfigKey(id).name| != |ConfigKey(id).name|;
    forall i: nat | Target(id, cr, i) == k ensures InstanceOwns(id, k) && k != ConfigKey(id) && k != ClaimKey(id) {
      MemberConfigIsNumbered(id, i);
    }
  }

  /** The last pass over a condemned instance that only the operator holds. */
  lemma LastPass(s: Store, id: Id, k: Key)
    requires Valid(s) && Condemned(s, id) && ObjAt(s, InstanceKey(id)).finalizers == [FINALIZER]
    ensures var t, cr := Reconciled(s, id), ObjAt(s, InstanceKey(id));
            && Valid(t) && !Alive(t, InstanceKey(id))
            && (k != InstanceKey(id) ==>
                  CellAt(t, k) == if Hit(id, cr, Targets(cr), k) then Gone(CellAt(s, k)) else CellAt(s, k))
  {
    hide Run, Tick, Deleted, Valid, Hit, Target, Gone;
    var cr := ObjAt(s, InstanceKey(id));
    RunCondemned(s, id);
    RunValid(s, Begin(id));
    DeletedCondemned(s, id, cr, Targets(cr));
    DeletedValid(s, id, cr, Targets(cr));
    DropTick(Deleted(s, id, cr, Targets(cr)), At(id, cr, Targets(cr)));
    assert Without([FINALIZER], FINALIZER) == [];
    DeletedAt(s, id, cr, Targets(cr), k);
  }

  /**
   Lifecycle accounting: starting where nothing of the instance exists, creating it, reconciling, deleting it
   and reconciling again leaves exactly two more objects than there were: the created ConfigMap and
   claim, whose keys teardown does not name.
   */
  lemma WholeLife(s: Store, id: Id, d: Draft)
    requires Valid(s) && Untouched(s, id) && FreshDraft(d)
    ensures var end := Reconciled(DeletedByUser(Reconciled(Created(s, id, d), id), id), id);
            && Valid(end)
            && forall k :: Alive(end, k) <==> Alive(s, k) || k == ConfigKey(id) || k == ClaimKey(id)
  {
    hide Run, Settled, Valid, Hit, Gone, Created, DeletedByUser, Reconciled, InstanceOwns;
    var u := Reconciled(Created(s, id, d), id);
    FirstPass(s, id, d);
    UntouchedScene(s, id);
    SettledGuarded(u, id);
    Marked(u, id);
    var v := DeletedByUser(u, id);
    var cr := ObjAt(v, InstanceKey(id));
    var end := Reconciled(v, id);
    LastPass(v, id, InstanceKey(id));
    forall k ensures Alive(end, k) <==> Alive(s, k) || k == ConfigKey(id) || k == ClaimKey(id) {
      LastPass(v, id, k);
      HitsOwned(id, cr, k);
      GoneAlive(CellAt(v, k));
    }
  }

  lemma GoneAlive(c: Cell)
    ensures Gone(c).live.Some? ==> c.live.Some?
    ensures c.live.Some? && c.live.value.finalizers == [] ==> Gone(c).live.None?
  {
  }

  lemma SettledGuarded(s: Store, id: Id)
    requires Settled(SceneOf(s, id), id)
    ensures Guarded(s, id) && ObjAt(s, InstanceKey(id)) == Cr(SceneOf(s, id))
  {
  }

  /** A second life does not settle: what the first one left behind blocks the creation, however often it is retried. */
  lemma SecondLifeNeverSettles(s: Store, id: Id, d: Draft, again: Draft, n: nat)
    requires Valid(s) && Untouched(s, id) && FreshDraft(d) && FreshDraft(again)
    ensures var end := Reconciled(DeletedByUser(Reconciled(Created(s, id, d), id), id), id);
            !SettledAfter(Created(end, id, again), id, n)
  {
    hide Run, Settled, Valid, Reconciled, DeletedByUser, Live, Good, SceneOf, Passes, InstanceOwns;
    var end := Reconciled(DeletedByUser(Reconciled(Created(s, id, d), id), id), id);
    WholeLife(s, id, d);
    UntouchedScene(s, id);
    CreatedLive(end, id, again);
    var t := Created(end, id, again);
    Leftovers(end, t, id);
    BadPasses(t, id, n);
    if Settled(SceneOf(Passes(t, id, n), id), id) {
      SettledIsLive(SceneOf(Passes(t, id, n), id), id);
    }
  }

  lemma Leftovers(s: Store, t: Store, id: Id)
    requires Alive(s, ConfigKey(id)) && !Alive(s, DeploymentKey(id))
    requires forall k | k != InstanceKey(id) :: CellAt(t, k) == CellAt(s, k)
    ensures !Good(SceneOf(t, id))
  {
    assert CellAt(t, ConfigKey(id)) == CellAt(s, ConfigKey(id));
    assert CellAt(t, DeploymentKey(id)) == CellAt(s, DeploymentKey(id));
  }
}

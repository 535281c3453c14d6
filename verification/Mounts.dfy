/**
 The ConfigMap that a Deployment names as its volume: it never exists.
 */
module Mounts {
  import opened Api
  import opened Kube
  import opened Names
  import opened InstancePass
  import opened AnyEnvironment
  import opened Fleet

  /** The Deployment of this name mounts the ConfigMap without the dash. */
  ghost predicate MountsOld(body: Body, id: Id) {
    body.PodTemplate? && Key(ConfigMapKind, id.ns, body.volume) == OldConfigKey(id)
  }

  ghost predicate Mounted(c: Cell, id: Id) {
    c.live.Some? ==> MountsOld(c.live.value.body, id)
  }

  /** A second write that would take effect carries a body of the same kind. */
  ghost predicate Carries(p: Pass) {
    p.pc.Rewrite? && p.pc.child.Workload? && p.pc.version == 0 ==> MountsOld(p.pc.stale.body, p.id)
  }

  ghost predicate Dangling(sys: System) {
    && (forall id: Id | DnsName(id.name) :: !Alive(sys.store, OldConfigKey(id)) && Mounted(CellAt(sys.store, DeploymentKey(id)), id))
    && (forall id | id in sys.passes :: Carries(sys.passes[id]))
  }

  /** What is never asked of the server: to create or write the ConfigMap without the dash. */
  lemma OldConfigUnmade(p: Pass, id: Id)
    requires !p.pc.Done? && DnsName(p.id.name) && DnsName(id.name) && Ask(p).key == OldConfigKey(id)
    ensures Ask(p).verb.Delete?
  {
    OldConfigIsNoConfig(id, p.id);
  }

  lemma OldConfigStays(s: Store, p: Pass, id: Id)
    requires !p.pc.Done? && DnsName(p.id.name) && DnsName(id.name) && !Alive(s, OldConfigKey(id))
    ensures !Alive(Apply(s, Ask(p)).0, OldConfigKey(id))
  {
    hide Ask, OldConfigKey;
    ApplyElsewhere(s, Ask(p));
    if Ask(p).key == OldConfigKey(id) {
      OldConfigUnmade(p, id);
    }
  }

  lemma DesiredMounts(id: Id, cr: Obj)
    ensures MountsOld(Desired(id, cr, Workload).body, id)
  {
  }

  lemma ServeMounted(c: Cell, verb: Verb, id: Id)
    requires Mounted(c, id) && (verb.Create? || verb.Update? ==> MountsOld(verb.draft.body, id))
    requires !verb.UpdateStatus?
    ensures Mounted(Serve(c, verb).0, id)
  {
  }

  /** The calls on the Deployment: all but the second write carry the desired one. */
  lemma DeploymentCall(p: Pass, id: Id)
    requires !p.pc.Done? && Ask(p).key == DeploymentKey(id)
    ensures p.id == id && !Ask(p).verb.UpdateStatus?
    ensures Ask(p).verb.Create? || Ask(p).verb.Update? ==>
              Ask(p).verb.draft == Desired(id, p.cr, Workload) || (p.pc.Rewrite? && p.pc.child.Workload? && Ask(p).verb.draft == p.pc.stale)
  {
  }

  lemma DeploymentStays(s: Store, p: Pass, id: Id)
    requires Valid(s) && Coherent(s, p) && Carries(p) && !p.pc.Done? && Mounted(CellAt(s, DeploymentKey(id)), id)
    ensures Mounted(CellAt(Apply(s, Ask(p)).0, DeploymentKey(id)), id)
  {
    hide Ask, Resume, Serve, Coherent, Valid, Mounted, MountsOld, Desired;
    var (t, reply) := Apply(s, Ask(p));
    ApplyAt(s, Ask(p), DeploymentKey(id));
    if Ask(p).key == DeploymentKey(id) {
      DeploymentCall(p, id);
      DesiredMounts(id, p.cr);
      if p.pc.Rewrite? && p.pc.version != 0 {
        SwapIsSafe(Event(p, s, reply, t));
      } else {
        ServeMounted(CellAt(s, DeploymentKey(id)), Ask(p).verb, id);
      }
    }
  }

  lemma CarriesOn(s: Store, p: Pass, reply: Reply)
    requires Coherent(s, p) && !p.pc.Done?
    ensures Carries(Resume(p, reply))
  {
    hide Resume, Desired, MountsOld;
    if Resume(p, reply).pc.Rewrite? {
      KnownSeen(s, p);
      RewriteStep(p, reply);
      DesiredMounts(Resume(p, reply).id, Resume(p, reply).cr);
    }
  }

  lemma KnownSeen(s: Store, p: Pass)
    requires Coherent(s, p)
    ensures p.pc.Overwrite? ==> p.pc.seen.version != 0
  {
  }

  lemma DanglingAct(sys: System, a: Action)
    requires Invariant(sys) && Dangling(sys)
    ensures Dangling(Act(sys, a))
  {
    hide Ask, Resume, Serve, Coherent, Valid, Mounted, Tidy, Stands, SceneOf, OldConfigKey;
    match a
    case Call(x) =>
      if Running(sys, x) {
        DanglingCall(sys, x);
      }
    case Fault(x) => if Running(sys, x) { CarriesOn(sys.store, sys.passes[x], Transient); }
    case ByUser(req) =>
      if UserMay(sys.store, req) {
        ApplyElsewhere(sys.store, req);
        forall id: Id ensures req.key != OldConfigKey(id) && req.key != DeploymentKey(id) { ChildKinds(id); }
      }
    case Start(_) =>
    case Crash(_) =>
  }

  lemma ChildKinds(id: Id)
    ensures IsChildKind(OldConfigKey(id).kind) && IsChildKind(DeploymentKey(id).kind)
  {
  }

  lemma DanglingCall(sys: System, x: Id)
    requires Invariant(sys) && Dangling(sys) && Running(sys, x)
    ensures Dangling(Act(sys, Call(x)))
  {
    hide Ask, Resume, Serve, Apply, Coherent, Valid, Mounted, Tidy, Stands, SceneOf, OldConfigKey, Carries;
    var p := sys.passes[x];
    forall id: Id | DnsName(id.name)
      ensures !Alive(Apply(sys.store, Ask(p)).0, OldConfigKey(id))
      ensures Mounted(CellAt(Apply(sys.store, Ask(p)).0, DeploymentKey(id)), id)
    {
      OldConfigStays(sys.store, p, id);
      DeploymentStays(sys.store, p, id);
    }
    CarriesOn(sys.store, p, Apply(sys.store, Ask(p)).1);
  }

  lemma {:induction false} ExecuteDangling(actions: seq<Action>)
    ensures Dangling(Execute(EMPTY, actions))
    decreases |actions|
  {
    if actions != [] {
      var before := actions[..|actions| - 1];
      ExecuteDangling(before);
      ExecuteKeepsInvariant(EMPTY, before);
      DanglingAct(Execute(EMPTY, before), actions[|actions| - 1]);
    }
  }

  /** After every run, the ConfigMap that a Deployment mounts does not exist, while the one created with it does. */
  lemma MountsNothing(actions: seq<Action>, id: Id)
    requires DnsName(id.name)
    ensures var s := Execute(EMPTY, actions).store;
            && !Alive(s, OldConfigKey(id))
            && (Alive(s, DeploymentKey(id)) ==>
                  var body := ObjAt(s, DeploymentKey(id)).body;
                  && body.PodTemplate?
                  && !Alive(s, Key(ConfigMapKind, id.ns, body.volume))
                  && Alive(s, ConfigKey(id)))
  {
    ExecuteDangling(actions);
    ChildrenInOrder(actions, id);
    assert Mounted(CellAt(Execute(EMPTY, actions).store, DeploymentKey(id)), id);
  }
}

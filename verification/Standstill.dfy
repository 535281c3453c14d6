/**
 Where a name can get stuck for good: its ConfigMap is there, its Deployment is not, and no pass is about to make one.
 */
module Standstill {
  import opened Api
  import opened Kube
  import opened Names
  import opened InstancePass
  import opened AnyEnvironment
  import opened Fleet

  ghost predicate Making(pc: Pc) {
    pc.MakeClaim? || pc.MakeDeployment?
  }

  ghost predicate Blocked(sc: Scene) {
    sc.config.live.Some? && sc.workload.live.None?
  }

  /** No pass of the name is between its own ConfigMap and the Deployment. */
  ghost predicate Stuck(sys: System, id: Id) {
    Blocked(SceneOf(sys.store, id)) && (id in sys.passes ==> !Making(sys.passes[id].pc))
  }

  /** A call on its scene: the Create of the ConfigMap fails, and nothing that comes later is reached. */
  lemma BlockedCall(sc: Scene, p: Pass)
    requires Tidy(sc) && Stands(sc, p) && ValidScene(sc) && Blocked(sc)
    requires !p.pc.Done? && PlaceOf(p.pc) != Elsewhere && !Making(p.pc)
    ensures var (c, reply) := Serve(CellIn(sc, PlaceOf(p.pc)), Ask(p).verb);
            Blocked(Shift(sc, PlaceOf(p.pc), c)) && !Making(Resume(p, reply).pc)
  {
  }

  lemma BlockedElsewhere(sc: Scene, p: Pass, reply: Reply)
    requires !p.pc.Done? && PlaceOf(p.pc) == Elsewhere
    ensures !Making(Resume(p, reply).pc)
  {
  }

  /** A failed read of the Deployment leads to the ConfigMap; any other failure ends the pass or goes on without creating. */
  lemma FaultMakesNothing(p: Pass)
    requires !p.pc.Done?
    ensures !Making(Resume(p, Transient).pc)
  {
  }

  lemma StuckCall(s: Store, p: Pass)
    requires Valid(s) && Tidy(SceneOf(s, p.id)) && Sound(s, p) && !p.pc.Done?
    requires Blocked(SceneOf(s, p.id)) && !Making(p.pc)
    ensures var (t, reply) := Apply(s, Ask(p)); Blocked(SceneOf(t, p.id)) && !Making(Resume(p, reply).pc)
  {
    hide Resume, Ask, Serve, Tidy, Stands, Making, Blocked, Coherent;
    SceneAfter(s, p);
    if PlaceOf(p.pc) == Elsewhere {
      BlockedElsewhere(SceneOf(s, p.id), p, Apply(s, Ask(p)).1);
    } else {
      BlockedCall(SceneOf(s, p.id), p);
    }
  }

  lemma StuckUser(s: Store, req: Request, id: Id)
    requires UserMay(s, req) && Blocked(SceneOf(s, id))
    ensures Blocked(SceneOf(Apply(s, req).0, id))
  {
    ApplyElsewhere(s, req);
  }

  lemma StuckAct(sys: System, a: Action, id: Id)
    requires Invariant(sys) && DnsName(id.name) && Stuck(sys, id)
    ensures Stuck(Act(sys, a), id)
  {
    hide Ask, Resume, Apply, UserMay, Blocked, Sound, SceneOf, Tidy, Valid;
    match a
    case Call(x) =>
      if Running(sys, x) {
        if x == id {
          StuckCall(sys.store, sys.passes[x]);
        } else {
          CallElsewhere(sys.store, sys.passes[x], id);
        }
      }
    case Fault(x) => if Running(sys, x) { FaultMakesNothing(sys.passes[x]); }
    case ByUser(req) => if UserMay(sys.store, req) { StuckUser(sys.store, req, id); }
    case Start(_) =>
    case Crash(_) =>
  }

  /**
   From then on no run, whatever users, failures, crashes, deletion and re-creation bring, ever has a
   Deployment of that name, and the ConfigMap that blocks it stays.
   */
  lemma {:induction false} NeverDeployed(actions: seq<Action>, more: seq<Action>, id: Id)
    requires DnsName(id.name) && Stuck(Execute(EMPTY, actions), id)
    ensures Stuck(Execute(EMPTY, actions + more), id)
    ensures var s := Execute(EMPTY, actions + more).store; !Alive(s, DeploymentKey(id)) && Alive(s, ConfigKey(id))
    decreases |more|
  {
    hide Act;
    if more == [] {
      assert actions + more == actions;
    } else {
      var before, a := more[..|more| - 1], more[|more| - 1];
      NeverDeployed(actions, before, id);
      assert (actions + more)[..|actions + more| - 1] == actions + before;
      ExecuteKeepsInvariant(EMPTY, actions + before);
      StuckAct(Execute(EMPTY, actions + before), a, id);
    }
  }

  /** In particular once an instance is gone and has left its ConfigMap behind, and no pass for it is under way. */
  lemma NoSecondDeployment(actions: seq<Action>, more: seq<Action>, id: Id)
    requires DnsName(id.name)
    requires var sys := Execute(EMPTY, actions);
             !Running(sys, id) && !Alive(sys.store, InstanceKey(id)) && Alive(sys.store, ConfigKey(id))
    ensures !Alive(Execute(EMPTY, actions + more).store, DeploymentKey(id))
  {
    NoOrphans(actions, id);
    NeverDeployed(actions, more, id);
  }
}

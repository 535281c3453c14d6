/**
 All SingleInstances of a cluster at once: passes for different names interleave call by call,
 any call may fail, the operator may crash between calls, and users create, edit and delete
 custom resources. Users do not take the operator's finalizer off and do not touch children.
 */
module Fleet {
  import opened Api
  import opened Kube
  import opened Names
  import opened InstancePass
  import opened AnyEnvironment

  /** Passes for one name are serialised, so a name has at most one pass. */
  datatype System = System(store: Store, passes: map<Id, Pass>)

  datatype Action = Start(id: Id) | Call(id: Id) | Fault(id: Id) | Crash(id: Id) | ByUser(req: Request)

  const EMPTY := System(map[], map[])

  predicate IsChildKind(kind: Kind) {
    kind == DeploymentKind || kind == ServiceKind || kind == ConfigMapKind || kind == ClaimKind
  }

  predicate UserMay(s: Store, req: Request) {
    && !IsChildKind(req.key.kind)
    && (req.verb.Update? && Alive(s, req.key) && Guards(ObjAt(s, req.key)) ==> FINALIZER in req.verb.draft.finalizers)
  }

  predicate Running(sys: System, id: Id) {
    id in sys.passes && !sys.passes[id].pc.Done?
  }

  /** One step; an action that is not possible in this state does nothing. */
  function Act(sys: System, a: Action): System {
    match a
    case Start(id) =>
      if Running(sys, id) || !DnsName(id.name) then sys else sys.(passes := sys.passes[id := Begin(id)])
    case Call(id) =>
      if !Running(sys, id) then
        sys
      else
        var (t, reply) := Apply(sys.store, Ask(sys.passes[id]));
        System(t, sys.passes[id := Resume(sys.passes[id], reply)])
    case Fault(id) =>
      if !Running(sys, id) then sys else sys.(passes := sys.passes[id := Resume(sys.passes[id], Transient)])
    case Crash(id) => sys.(passes := sys.passes - {id})
    case ByUser(req) => if UserMay(sys.store, req) then sys.(store := Apply(sys.store, req).0) else sys
  }

  function Execute(sys: System, actions: seq<Action>): System
    decreases |actions|
  {
    if actions == [] then sys else Act(Execute(sys, actions[..|actions| - 1]), actions[|actions| - 1])
  }

  // ----- The invariant of one name -----

  /** The cells that one name's invariant is about. */
  datatype Scene = Scene(instance: Cell, config: Cell, claim: Cell, workload: Cell, front: Cell)

  ghost function SceneOf(s: Store, id: Id): Scene {
    Scene(CellAt(s, InstanceKey(id)), CellAt(s, ConfigKey(id)), CellAt(s, ClaimKey(id)),
          CellAt(s, DeploymentKey(id)), CellAt(s, ServiceKey(id)))
  }

  ghost predicate HasGuard(sc: Scene) {
    sc.instance.live.Some? && Guards(sc.instance.live.value)
  }

  ghost predicate Terminating(sc: Scene) {
    HasGuard(sc) && sc.instance.live.value.deleting
  }

  /**
   The children form a prefix of ConfigMap, claim, Deployment, Service, except that a terminating
   instance may have lost its Deployment before its Service.
   */
  ghost predicate InOrder(sc: Scene) {
    && (sc.claim.live.Some? ==> sc.config.live.Some?)
    && (sc.workload.live.Some? ==> sc.claim.live.Some?)
    && (sc.front.live.Some? ==> sc.claim.live.Some? && (sc.workload.live.Some? || Terminating(sc)))
  }

  ghost predicate Bare(c: Cell) {
    c.live.Some? ==> c.live.value.finalizers == []
  }

  ghost predicate NoWorkload(sc: Scene) {
    sc.workload.live.None? && sc.front.live.None?
  }

  ghost predicate Tidy(sc: Scene) {
    && InOrder(sc)
    && (HasGuard(sc) || NoWorkload(sc))
    && Bare(sc.config) && Bare(sc.claim) && Bare(sc.workload) && Bare(sc.front)
  }

  /** The passes that have the finalizer installed and go on to create or update children. */
  ghost predicate Armed(pc: Pc) {
    || pc.FindDeployment? || pc.MakeConfig? || pc.MakeClaim? || pc.MakeDeployment? || pc.MakeService?
    || Tending(pc)
  }

  /** The passes that know the Deployment exists. */
  ghost predicate Tending(pc: Pc) {
    pc.ReportStatus? || pc.Annotate? || pc.Look? || pc.Overwrite? || pc.MakeMissing? || pc.Rewrite?
  }

  /** What a pass may rely on at its present call. */
  ghost predicate Stands(sc: Scene, p: Pass) {
    && (Armed(p.pc) ==> HasGuard(sc) && Guards(p.cr))
    && (p.pc.MakeClaim? ==> sc.config.live.Some? && sc.claim.live.None?)
    && (p.pc.MakeDeployment? ==> sc.claim.live.Some? && NoWorkload(sc))
    && (p.pc.MakeService? || Tending(p.pc) ==> sc.workload.live.Some?)
    && (p.pc.Rewrite? ==> p.pc.stale.finalizers == [])
    && (InTeardown(p.pc) ==> Terminating(sc))
    && (p.pc.DeleteService? || p.pc.DeleteConfig? || p.pc.DropFinalizer? ==> sc.workload.live.None?)
    && (p.pc.DeleteConfig? || p.pc.DropFinalizer? ==> sc.front.live.None?)
    && (p.pc.StripFinalizer? || p.pc.ConfirmInstance? || p.pc.InstallFinalizer? ==> NoWorkload(sc))
  }

  // ----- One call of the pass, seen on its scene -----

  datatype Place = AtInstance | AtConfig | AtClaim | AtWorkload | AtFront | Elsewhere

  function PlaceOf(pc: Pc): Place {
    match pc
    case DeleteClaim(_) => Elsewhere
    case DeleteConfig => Elsewhere
    case DeleteDeployment => AtWorkload
    case DeleteService => AtFront
    case FindDeployment => AtWorkload
    case MakeConfig => AtConfig
    case MakeClaim => AtClaim
    case MakeDeployment => AtWorkload
    case MakeService => AtFront
    case Look(child) => ChildPlace(child)
    case Overwrite(child, _) => ChildPlace(child)
    case MakeMissing(child) => ChildPlace(child)
    case Rewrite(child, _, _) => ChildPlace(child)
    case _ => AtInstance
  }

  function ChildPlace(child: Child): Place {
    match child
    case Workload => AtWorkload
    case Front => AtFront
    case Config => AtConfig
  }

  function CellIn(sc: Scene, place: Place): Cell {
    match place
    case AtInstance => sc.instance
    case AtConfig => sc.config
    case AtClaim => sc.claim
    case AtWorkload => sc.workload
    case AtFront => sc.front
    case Elsewhere => VACANT
  }

  function Shift(sc: Scene, place: Place, c: Cell): Scene {
    match place
    case AtInstance => sc.(instance := c)
    case AtConfig => sc.(config := c)
    case AtClaim => sc.(claim := c)
    case AtWorkload => sc.(workload := c)
    case AtFront => sc.(front := c)
    case Elsewhere => sc
  }

  lemma ApplyElsewhere(s: Store, req: Request)
    ensures forall k | k != req.key :: CellAt(Apply(s, req).0, k) == CellAt(s, k)
  {
  }

  /** The claims and the ConfigMap that teardown names are not the ones that were created. */
  lemma SceneAfter(s: Store, p: Pass)
    requires !p.pc.Done?
    ensures var sc, place := SceneOf(s, p.id), PlaceOf(p.pc);
            && SceneOf(Apply(s, Ask(p)).0, p.id) == Shift(sc, place, Serve(CellIn(sc, place), Ask(p).verb).0)
            && (place != Elsewhere ==> Apply(s, Ask(p)).1 == Serve(CellIn(sc, place), Ask(p).verb).1)
  {
    hide Serve;
    ApplyElsewhere(s, Ask(p));
    EndsInLetter(p.id);
    if p.pc.DeleteClaim? {
      MemberConfigIsNumbered(p.id, p.pc.ordinal);
    }
    assert |OldConfigKey(p.id).name| != |ConfigKey(p.id).name|;
  }

  ghost predicate Keeps(sc: Scene, p: Pass)
    requires !p.pc.Done?
  {
    var place := PlaceOf(p.pc);
    var (c, reply) := Serve(CellIn(sc, place), Ask(p).verb);
    Tidy(Shift(sc, place, c)) && Stands(Shift(sc, place, c), Resume(p, reply))
  }

  lemma FetchKeeps(sc: Scene, p: Pass)
    requires Tidy(sc) && p.pc.FetchInstance?
    ensures Keeps(sc, p)
  {
  }

  lemma ReadKeeps(sc: Scene, p: Pass)
    requires Tidy(sc) && Stands(sc, p) && (p.pc.FindDeployment? || p.pc.Look?)
    ensures Keeps(sc, p)
  {
  }

  lemma DeleteKeeps(sc: Scene, p: Pass)
    requires Tidy(sc) && Stands(sc, p) && (p.pc.DeleteDeployment? || p.pc.DeleteService?)
    ensures Keeps(sc, p)
  {
  }

  lemma CreateKeeps(sc: Scene, p: Pass)
    requires Tidy(sc) && Stands(sc, p)
    requires p.pc.MakeConfig? || p.pc.MakeClaim? || p.pc.MakeDeployment? || p.pc.MakeService?
    ensures Keeps(sc, p)
  {
  }

  lemma UnknownKeyStands(sc: Scene, p: Pass, reply: Reply)
    requires Tidy(sc) && Stands(sc, p) && (p.pc.DeleteClaim? || p.pc.DeleteConfig?)
    ensures Stands(sc, Resume(p, reply))
  {
  }

  lemma TransientStands(sc: Scene, p: Pass)
    requires Stands(sc, p) && !p.pc.Done?
    ensures Stands(sc, Resume(p, Transient))
  {
  }

  /** Whatever the server answers to such a write, a guarded object stays guarded and a terminating one terminating. */
  lemma ServeGuarded(c: Cell, verb: Verb)
    requires verb.Update? ==> FINALIZER in verb.draft.finalizers
    requires c.live.Some? && Guards(c.live.value)
    ensures var (d, reply) := Serve(c, verb);
            && d.live.Some? && Guards(d.live.value)
            && (c.live.value.deleting ==> d.live.value.deleting)
            && ((verb.Update? || verb.UpdateStatus?) && reply.Ok? ==> Guards(reply.obj))
  {
  }

  lemma InstallGuards(c: Cell, version: nat, d: Draft)
    requires FINALIZER in d.finalizers && Serve(c, Update(version, d)).1.Ok?
    ensures var (e, reply) := Serve(c, Update(version, d));
            e.live.Some? && Guards(e.live.value) && Guards(reply.obj)
  {
  }

  lemma LateWriteKeeps(sc: Scene, p: Pass)
    requires Tidy(sc) && Stands(sc, p) && (p.pc.Annotate? || p.pc.ReportStatus?)
    ensures Keeps(sc, p)
  {
    ServeGuarded(sc.instance, Ask(p).verb);
  }

  /** Installing the finalizer: it is refused, or it guards the object from then on. */
  lemma InstallKeeps(sc: Scene, p: Pass)
    requires Tidy(sc) && Stands(sc, p) && p.pc.InstallFinalizer?
    ensures Keeps(sc, p)
  {
    hide Serve;
    var verb := Ask(p).verb;
    if Serve(sc.instance, verb).1.Ok? {
      assert verb.draft.finalizers[|p.cr.finalizers|] == FINALIZER;
      InstallGuards(sc.instance, p.cr.version, verb.draft);
    }
  }

  /** The writes of the custom resource that come after the children are gone. */
  lemma EarlyWriteKeeps(sc: Scene, p: Pass)
    requires Tidy(sc) && Stands(sc, p) && ValidCell(sc.instance)
    requires p.pc.DropFinalizer? || p.pc.StripFinalizer? || p.pc.ConfirmInstance?
    requires p.pc.ConfirmInstance? ==> !Guards(p.cr)
    ensures Keeps(sc, p)
  {
    hide Serve;
    var verb := Ask(p).verb;
    if Serve(sc.instance, verb).1.Ok? {
      ServeKnown(sc.instance, verb);
    }
  }

  lemma ServeBare(c: Cell, verb: Verb)
    requires verb.Create? || verb.Update?
    requires ValidCell(c) && Bare(c) && verb.draft.finalizers == []
    ensures var d := Serve(c, verb).0; Bare(d) && (c.live.Some? ==> d.live.Some?)
  {
  }

  /** Whatever the answer, a swap ends the pass or leaves it tending the children. */
  lemma SwapResumes(p: Pass, reply: Reply)
    requires p.pc.Overwrite? || p.pc.MakeMissing? || p.pc.Rewrite?
    ensures var q := Resume(p, reply);
            q.pc.Done? || (q.cr == p.cr && Tending(q.pc) && (q.pc.Rewrite? ==> q.pc.stale.finalizers == []))
  {
  }

  lemma SwapKeeps(sc: Scene, p: Pass)
    requires Tidy(sc) && Stands(sc, p) && ValidCell(CellIn(sc, PlaceOf(p.pc)))
    requires p.pc.Overwrite? || p.pc.MakeMissing? || p.pc.Rewrite?
    ensures Keeps(sc, p)
  {
    hide Resume, Serve;
    var verb := Ask(p).verb;
    ServeBare(CellIn(sc, PlaceOf(p.pc)), verb);
    SwapResumes(p, Serve(CellIn(sc, PlaceOf(p.pc)), verb).1);
  }

  ghost predicate ValidScene(sc: Scene) {
    ValidCell(sc.instance) && ValidCell(sc.config) && ValidCell(sc.workload) && ValidCell(sc.front)
  }

  lemma CallKeeps(sc: Scene, p: Pass)
    requires Tidy(sc) && Stands(sc, p) && ValidScene(sc)
    requires !p.pc.Done? && PlaceOf(p.pc) != Elsewhere
    requires p.pc.ConfirmInstance? ==> !Guards(p.cr)
    ensures Keeps(sc, p)
  {
    match p.pc
    case FetchInstance => FetchKeeps(sc, p);
    case FindDeployment => ReadKeeps(sc, p);
    case Look(_) => ReadKeeps(sc, p);
    case DeleteDeployment => DeleteKeeps(sc, p);
    case DeleteService => DeleteKeeps(sc, p);
    case MakeConfig => CreateKeeps(sc, p);
    case MakeClaim => CreateKeeps(sc, p);
    case MakeDeployment => CreateKeeps(sc, p);
    case MakeService => CreateKeeps(sc, p);
    case Overwrite(_, _) => SwapKeeps(sc, p);
    case MakeMissing(_) => SwapKeeps(sc, p);
    case Rewrite(_, _, _) => SwapKeeps(sc, p);
    case Annotate => LateWriteKeeps(sc, p);
    case ReportStatus(_) => LateWriteKeeps(sc, p);
    case InstallFinalizer => InstallKeeps(sc, p);
    case _ => EarlyWriteKeeps(sc, p);
  }

  // ----- The invariant of the whole system -----

  ghost predicate Sound(s: Store, p: Pass) {
    Coherent(s, p) && Stands(SceneOf(s, p.id), p)
  }

  ghost predicate Invariant(sys: System) {
    && Valid(sys.store)
    && (forall id: Id | DnsName(id.name) :: Tidy(SceneOf(sys.store, id)))
    && (forall id | id in sys.passes :: DnsName(id.name) && sys.passes[id].id == id && Sound(sys.store, sys.passes[id]))
  }

  lemma ResumeId(p: Pass, reply: Reply)
    requires !p.pc.Done?
    ensures Resume(p, reply).id == p.id
  {
  }

  lemma CallSound(s: Store, p: Pass)
    requires Valid(s) && Tidy(SceneOf(s, p.id)) && Sound(s, p) && !p.pc.Done?
    ensures var (t, reply) := Apply(s, Ask(p)); Tidy(SceneOf(t, p.id)) && Sound(t, Resume(p, reply))
  {
    hide Resume, Ask, Serve;
    var sc := SceneOf(s, p.id);
    ResumeId(p, Apply(s, Ask(p)).1);
    StepCoherent(s, p);
    SceneAfter(s, p);
    if PlaceOf(p.pc) == Elsewhere {
      UnknownKeyStands(sc, p, Apply(s, Ask(p)).1);
    } else {
      CallKeeps(sc, p);
    }
  }

  lemma AskOwned(p: Pass)
    requires !p.pc.Done?
    ensures InstanceOwns(p.id, Ask(p).key)
  {
  }

  lemma ApplyUnowned(s: Store, req: Request, id: Id)
    requires !InstanceOwns(id, req.key)
    ensures SceneOf(Apply(s, req).0, id) == SceneOf(s, id)
  {
    ApplyElsewhere(s, req);
  }

  /** A call for one name leaves the scene of every other name alone. */
  lemma CallElsewhere(s: Store, p: Pass, id: Id)
    requires !p.pc.Done? && DnsName(p.id.name) && DnsName(id.name) && id != p.id
    ensures SceneOf(Apply(s, Ask(p)).0, id) == SceneOf(s, id)
  {
    hide Ask, Apply, InstanceOwns;
    AskOwned(p);
    if InstanceOwns(id, Ask(p).key) {
      InstancesOwnApart(id, p.id, Ask(p).key);
    } else {
      ApplyUnowned(s, Ask(p), id);
    }
  }

  lemma SoundElsewhere(s: Store, t: Store, p: Pass)
    requires Valid(s) && Evolves(s, t) && Sound(s, p) && SceneOf(t, p.id) == SceneOf(s, p.id)
    ensures Sound(t, p)
  {
    CoherentEvolves(s, t, p);
  }

  lemma UserServe(sc: Scene, c: Cell)
    requires HasGuard(sc) ==> c.live.Some? && Guards(c.live.value)
    requires Terminating(sc) ==> c.live.Some? && c.live.value.deleting
    ensures Tidy(sc) ==> Tidy(sc.(instance := c))
    ensures forall p :: Stands(sc, p) ==> Stands(sc.(instance := c), p)
  {
  }

  lemma UserKeeps(s: Store, req: Request, id: Id)
    requires UserMay(s, req)
    ensures var t := Apply(s, req).0;
            && (Tidy(SceneOf(s, id)) ==> Tidy(SceneOf(t, id)))
            && (forall p :: Stands(SceneOf(s, id), p) ==> Stands(SceneOf(t, id), p))
  {
    var t := Apply(s, req).0;
    ApplyElsewhere(s, req);
    var c := CellAt(s, InstanceKey(id));
    if req.key == InstanceKey(id) {
      ApplyAt(s, req, req.key);
      if c.live.Some? && Guards(c.live.value) {
        ServeGuarded(c, req.verb);
      }
      UserServe(SceneOf(s, id), CellAt(t, InstanceKey(id)));
      assert SceneOf(t, id) == SceneOf(s, id).(instance := CellAt(t, InstanceKey(id)));
    } else {
      assert SceneOf(t, id) == SceneOf(s, id);
    }
  }

  /** A step of one name's pass, put back into the system. */
  lemma StepKeepsInvariant(sys: System, id: Id, t: Store, q: Pass)
    requires Invariant(sys) && id in sys.passes && Valid(t) && Evolves(sys.store, t)
    requires q.id == id && Tidy(SceneOf(t, id)) && Sound(t, q)
    requires forall other: Id | DnsName(other.name) && other != id :: SceneOf(t, other) == SceneOf(sys.store, other)
    ensures Invariant(System(t, sys.passes[id := q]))
  {
    hide Tidy, Stands, Coherent, SceneOf;
    var next := System(t, sys.passes[id := q]);
    forall other | other in next.passes
      ensures DnsName(other.name) && next.passes[other].id == other && Sound(t, next.passes[other])
    {
      if other != id {
        SoundElsewhere(sys.store, t, sys.passes[other]);
      }
    }
  }

  lemma CallKeepsInvariant(sys: System, id: Id)
    requires Invariant(sys) && Running(sys, id)
    ensures Invariant(Act(sys, Call(id)))
  {
    hide Ask, Resume, Apply, Sound, SceneOf, Tidy, Evolves, Valid;
    var p := sys.passes[id];
    var (t, reply) := Apply(sys.store, Ask(p));
    ApplyEvolves(sys.store, Ask(p));
    CallSound(sys.store, p);
    ResumeId(p, reply);
    forall other: Id | DnsName(other.name) && other != id ensures SceneOf(t, other) == SceneOf(sys.store, other) {
      CallElsewhere(sys.store, p, other);
    }
    StepKeepsInvariant(sys, id, t, Resume(p, reply));
  }

  lemma FaultKeepsInvariant(sys: System, id: Id)
    requires Invariant(sys) && Running(sys, id)
    ensures Invariant(Act(sys, Fault(id)))
  {
    hide Resume, Coherent, Stands, Tidy, SceneOf;
    TransientCoherent(sys.store, sys.passes[id]);
    TransientStands(SceneOf(sys.store, id), sys.passes[id]);
    ResumeId(sys.passes[id], Transient);
  }

  lemma UserKeepsInvariant(sys: System, req: Request)
    requires Invariant(sys) && UserMay(sys.store, req)
    ensures Invariant(Act(sys, ByUser(req)))
  {
    var next := Act(sys, ByUser(req));
    ApplyEvolves(sys.store, req);
    forall id: Id | DnsName(id.name) ensures Tidy(SceneOf(next.store, id)) {
      UserKeeps(sys.store, req, id);
    }
    forall id | id in next.passes ensures Sound(next.store, next.passes[id]) {
      CoherentEvolves(sys.store, next.store, sys.passes[id]);
      UserKeeps(sys.store, req, id);
    }
  }

  lemma ActKeepsInvariant(sys: System, a: Action)
    requires Invariant(sys)
    ensures Invariant(Act(sys, a))
  {
    hide Ask, Resume, Apply, UserMay;
    match a
    case Call(id) => if Running(sys, id) { CallKeepsInvariant(sys, id); }
    case Fault(id) => if Running(sys, id) { FaultKeepsInvariant(sys, id); }
    case ByUser(req) => if UserMay(sys.store, req) { UserKeepsInvariant(sys, req); }
    case Start(id) =>
    case Crash(id) =>
  }

  lemma {:induction false} ExecuteKeepsInvariant(sys: System, actions: seq<Action>)
    requires Invariant(sys)
    ensures Invariant(Execute(sys, actions))
    decreases |actions|
  {
    if actions != [] {
      ExecuteKeepsInvariant(sys, actions[..|actions| - 1]);
      ActKeepsInvariant(Execute(sys, actions[..|actions| - 1]), actions[|actions| - 1]);
    }
  }

  // ----- What holds after every run -----

  /** No orphaned workload: a Deployment or a Service has a custom resource that carries the finalizer. */
  lemma NoOrphans(actions: seq<Action>, id: Id)
    requires DnsName(id.name)
    ensures var s := Execute(EMPTY, actions).store;
            Alive(s, DeploymentKey(id)) || Alive(s, ServiceKey(id)) ==> Guarded(s, id)
  {
    ExecuteKeepsInvariant(EMPTY, actions);
    var s := Execute(EMPTY, actions).store;
    assert Tidy(SceneOf(s, id));
  }

  /**
   The children of a name form a prefix of ConfigMap, claim, Deployment, Service, except that an
   instance marked for deletion may have lost its Deployment while it still has its Service.
   */
  lemma ChildrenInOrder(actions: seq<Action>, id: Id)
    requires DnsName(id.name)
    ensures var s := Execute(EMPTY, actions).store;
            && (Alive(s, ClaimKey(id)) ==> Alive(s, ConfigKey(id)))
            && (Alive(s, DeploymentKey(id)) ==> Alive(s, ClaimKey(id)))
            && (Alive(s, ServiceKey(id)) ==> Alive(s, ClaimKey(id)))
            && (Alive(s, ServiceKey(id)) && !Alive(s, DeploymentKey(id)) ==>
                  Guarded(s, id) && ObjAt(s, InstanceKey(id)).deleting)
  {
    ExecuteKeepsInvariant(EMPTY, actions);
    var s := Execute(EMPTY, actions).store;
    assert Tidy(SceneOf(s, id));
  }
}

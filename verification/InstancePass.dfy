/**
 One reconcile pass for a SingleInstance, as the sequence of API calls it makes.

 A pass that waits for an answer is a `Pass`: its program counter says which call comes next,
 and `cr` is the custom resource as last read. `Ask` is the next call, `Resume` what the
 controller does with the answer. The classes in InstanceController.dfy make these calls.
 */
module InstancePass {
  import opened Api
  import opened Kube
  import opened Names

  const FINALIZER := "finalizer.greatsql.cn"

  /** The children that updateResource keeps in step. */
  datatype Child = Workload | Front | Config

  datatype Pc =
    | FetchInstance
    // HandleFinalizer
    | DeleteClaim(ordinal: nat)
    | DeleteDeployment
    | DeleteService
    | DeleteConfig
    | DropFinalizer
    // RemoveFinalizer, and the Update that follows it
    | StripFinalizer
    | ConfirmInstance
    // AddFinalizer
    | InstallFinalizer
    // createResources
    | FindDeployment
    | MakeConfig
    | MakeClaim
    | MakeDeployment
    | MakeService
    | ReportStatus(service: Obj)
    // watchResource
    | Annotate
    | Look(child: Child)
    | Overwrite(child: Child, seen: Obj)
    | MakeMissing(child: Child)
    | Rewrite(child: Child, version: nat, stale: Draft)
    | Done(failed: bool)

  datatype Pass = Pass(id: Id, cr: Obj, pc: Pc)

  // ----- Finalizer lists -----

  function Without(fs: seq<string>, f: string): (r: seq<string>)
    ensures f !in r
    ensures forall g | g in fs && g != f :: g in r
    ensures forall g | g in r :: g in fs
  {
    if fs == [] then []
    else if fs[0] == f then Without(fs[1..], f)
    else [fs[0]] + Without(fs[1..], f)
  }

  /** Taking a finalizer off goes entry by entry: every other one stays, as often as it was there and in its place. */
  lemma {:induction false} WithoutEntrywise(fs: seq<string>, gs: seq<string>, f: string, g: string)
    ensures Without(fs + gs, f) == Without(fs, f) + Without(gs, f)
    ensures Without([g], f) == if g == f then [] else [g]
    ensures Without([], f) == []
  {
    if fs == [] {
      assert fs + gs == gs;
    } else {
      assert (fs + gs)[0] == fs[0] && (fs + gs)[1..] == fs[1..] + gs;
      WithoutEntrywise(fs[1..], gs, f, g);
    }
    assert [g][1..] == [];
  }

  predicate Guards(o: Obj) { FINALIZER in o.finalizers }

  // ----- Desired children -----

  function Labels(id: Id): map<string, string> {
    map["app.kubernetes.io/name" := id.name, "app.kubernetes.io/instance" := id.name]
  }

  function OwnerOf(id: Id, cr: Obj): Option<Owner> { Some(Owner(InstanceKind, id.name, cr.uid)) }

  function NewDeployment(id: Id, cr: Obj): Draft {
    Draft([], Meta(map[], Labels(id), OwnerOf(id, cr)), PodTemplate(id.name + "config", SpecOf(cr)))
  }

  function NewService(id: Id, cr: Obj): Draft {
    Draft([], Meta(map[], map["app.kubernetes.io/name" := id.name], OwnerOf(id, cr)),
          Ports(id.name, SpecOf(cr).service, false))
  }

  function NewConfigMap(): Draft {
    Draft([], NO_META, MyCnf(Settings(0, "greatsql", "", "1G")))
  }

  function NewClaim(cr: Obj): Draft {
    Draft([], NO_META, Storage(SpecOf(cr).storageClass, SpecOf(cr).pod))
  }

  function ChildKey(id: Id, child: Child): Key {
    match child
    case Workload => DeploymentKey(id)
    case Front => ServiceKey(id)
    case Config => ConfigKey(id)
  }

  function Desired(id: Id, cr: Obj, child: Child): Draft {
    match child
    case Workload => NewDeployment(id, cr)
    case Front => NewService(id, cr)
    case Config => NewConfigMap()
  }

  predicate ValidSpec(spec: InstanceSpec) {
    spec.size.Some? && spec.size.value != 0 && spec.storageClass.Some?
  }

  // ----- The calls -----

  /** The custom resource as edited in memory before the write that comes next. */
  function Edited(p: Pass): Obj {
    match p.pc
    case DropFinalizer => p.cr.(finalizers := Without(p.cr.finalizers, FINALIZER))
    case StripFinalizer => p.cr.(finalizers := Without(p.cr.finalizers, FINALIZER))
    case InstallFinalizer => p.cr.(finalizers := p.cr.finalizers + [FINALIZER])
    case Annotate => p.cr.(meta := p.cr.meta.(annotations := p.cr.meta.annotations["spec" := Json(SpecOf(p.cr))]))
    case _ => p.cr
  }

  /** What updateResource writes second: the object it read, under the desired metadata. */
  function Overlay(seen: Obj, wanted: Draft): Draft {
    Draft(wanted.finalizers, wanted.meta, seen.body)
  }

  function StatusFor(cr: Obj, service: Obj): Status {
    Reported(if SpecOf(cr).size.Some? then SpecOf(cr).size.value else 0, service.version)
  }

  function Ask(p: Pass): Request
    requires !p.pc.Done?
  {
    match p.pc
    case FetchInstance => Request(InstanceKey(p.id), Get)
    case DeleteClaim(ordinal) => Request(OldClaimKey(p.id, ordinal), Delete)
    case DeleteDeployment => Request(DeploymentKey(p.id), Delete)
    case DeleteService => Request(ServiceKey(p.id), Delete)
    case DeleteConfig => Request(OldConfigKey(p.id), Delete)
    case FindDeployment => Request(DeploymentKey(p.id), Get)
    case MakeConfig => Request(ConfigKey(p.id), Create(NewConfigMap()))
    case MakeClaim => Request(ClaimKey(p.id), Create(NewClaim(p.cr)))
    case MakeDeployment => Request(DeploymentKey(p.id), Create(NewDeployment(p.id, p.cr)))
    case MakeService => Request(ServiceKey(p.id), Create(NewService(p.id, p.cr)))
    case ReportStatus(service) => Request(InstanceKey(p.id), UpdateStatus(p.cr.version, StatusFor(p.cr, service)))
    case Look(child) => Request(ChildKey(p.id, child), Get)
    case Overwrite(child, seen) => Request(ChildKey(p.id, child), Update(seen.version, Desired(p.id, p.cr, child)))
    case MakeMissing(child) => Request(ChildKey(p.id, child), Create(Desired(p.id, p.cr, child)))
    case Rewrite(child, version, stale) => Request(ChildKey(p.id, child), Update(version, stale))
    case _ => Request(InstanceKey(p.id), Update(p.cr.version, DraftOf(Edited(p))))
  }

  // ----- What happens between the calls; each function is the entry of a method of the controller -----

  function Begin(id: Id): Pass { Pass(id, BLANK, FetchInstance) }

  function Stop(p: Pass, failed: bool): Pass { p.(pc := Done(failed)) }

  /** handleFinalizer */
  function EnterFinalizer(id: Id, cr: Obj): Pass {
    if !cr.deleting then EnterValidate(id, cr)
    else if Guards(cr) then EnterClaims(id, cr, 0)
    else EnterRemove(id, cr)
  }

  /** finalizePersistentVolumeClaims, from the given ordinal on */
  function EnterClaims(id: Id, cr: Obj, ordinal: nat): Pass {
    Pass(id, cr, if ordinal < GetSize(SpecOf(cr)) then DeleteClaim(ordinal) else DeleteDeployment)
  }

  /** RemoveFinalizer */
  function EnterRemove(id: Id, cr: Obj): Pass {
    Pass(id, cr, if Guards(cr) then StripFinalizer else ConfirmInstance)
  }

  /** validateAndAddFinalizer */
  function EnterValidate(id: Id, cr: Obj): Pass {
    Pass(id, cr,
         if !ValidSpec(SpecOf(cr)) then Done(true)
         else if Guards(cr) then FindDeployment
         else InstallFinalizer)
  }

  /** updateDeployment, then updateService, then updateConfigMap */
  function EnterNext(id: Id, cr: Obj, child: Child): Pass {
    Pass(id, cr,
         match child
         case Workload => Look(Front)
         case Front => Look(Config)
         case Config => Done(false))
  }

  function Resume(p: Pass, reply: Reply): Pass
    requires !p.pc.Done?
  {
    match p.pc
    case FetchInstance =>
      if reply.Ok? then EnterFinalizer(p.id, reply.obj)
      else if reply.NotFound? then EnterFinalizer(p.id, BLANK)
      else Stop(p, true)
    case DeleteClaim(ordinal) =>
      if reply.Ok? || reply.NotFound? then EnterClaims(p.id, p.cr, ordinal + 1) else Stop(p, true)
    case DeleteDeployment =>
      if reply.Ok? || reply.NotFound? then p.(pc := DeleteService) else Stop(p, true)
    case DeleteService =>
      if reply.Ok? || reply.NotFound? then p.(pc := DeleteConfig) else Stop(p, true)
    case DeleteConfig =>
      if reply.Ok? || reply.NotFound? then p.(pc := DropFinalizer) else Stop(p, true)
    case FindDeployment =>
      p.(pc := if reply.Ok? then Annotate else MakeConfig)
    case Look(child) =>
      if reply.Ok? then p.(pc := Overwrite(child, reply.obj))
      else if reply.NotFound? then p.(pc := MakeMissing(child))
      else Stop(p, true)
    case _ =>
      if reply.Ok? then Proceed(p, reply.obj) else Stop(p, true)
  }

  /** The calls after which any error ends the pass. */
  function Proceed(p: Pass, o: Obj): Pass {
    match p.pc
    case DropFinalizer => EnterRemove(p.id, o)
    case StripFinalizer => Pass(p.id, o, ConfirmInstance)
    case ConfirmInstance => EnterValidate(p.id, o)
    case InstallFinalizer => Pass(p.id, o, FindDeployment)
    case MakeConfig => p.(pc := MakeClaim)
    case MakeClaim => p.(pc := MakeDeployment)
    case MakeDeployment => p.(pc := MakeService)
    case MakeService => p.(pc := ReportStatus(o))
    case ReportStatus(_) => Pass(p.id, o, Annotate)
    case Annotate => Pass(p.id, o, Look(Workload))
    case Overwrite(child, seen) =>
      p.(pc := Rewrite(child, seen.version, Overlay(seen, Desired(p.id, p.cr, child))))
    case MakeMissing(child) => p.(pc := Rewrite(child, 0, Desired(p.id, p.cr, child)))
    case Rewrite(child, _, _) => EnterNext(p.id, p.cr, child)
    case _ => p
  }

  // ----- A whole pass -----

  /** How far a pass is from its end: the stage counts down and, inside teardown, so do the claims. */
  function Stage(pc: Pc): nat {
    match pc
    case FetchInstance => 25
    case DeleteClaim(_) => 24
    case DeleteDeployment => 23
    case DeleteService => 22
    case DeleteConfig => 21
    case DropFinalizer => 20
    case StripFinalizer => 19
    case ConfirmInstance => 18
    case InstallFinalizer => 17
    case FindDeployment => 16
    case MakeConfig => 15
    case MakeClaim => 14
    case MakeDeployment => 13
    case MakeService => 12
    case ReportStatus(_) => 11
    case Annotate => 10
    case Look(child) => 3 + ChildrenAfter(child)
    case Overwrite(child, _) => 2 + ChildrenAfter(child)
    case MakeMissing(child) => 2 + ChildrenAfter(child)
    case Rewrite(child, _, _) => 1 + ChildrenAfter(child)
    case Done(_) => 0
  }

  function ChildrenAfter(child: Child): nat {
    match child
    case Workload => 6
    case Front => 3
    case Config => 0
  }

  function ClaimsLeft(p: Pass): nat {
    if p.pc.DeleteClaim? && p.pc.ordinal < GetSize(SpecOf(p.cr)) then GetSize(SpecOf(p.cr)) - p.pc.ordinal else 0
  }

  lemma ResumeDescends(p: Pass, reply: Reply)
    requires !p.pc.Done?
    ensures var q := Resume(p, reply);
            Stage(q.pc) < Stage(p.pc) || (Stage(q.pc) == Stage(p.pc) && ClaimsLeft(q) < ClaimsLeft(p))
  {
  }

  /** The store and the pass at the end, when `turns` says what happens before each call; then all is quiet. */
  function Run(s: Store, p: Pass, turns: seq<Turn>): (Store, Pass)
    decreases Stage(p.pc), ClaimsLeft(p)
  {
    if p.pc.Done? then
      (s, p)
    else
      var (t, reply) := Answer(s, Ask(p), Next(turns));
      ResumeDescends(p, reply);
      Run(t, Resume(p, reply), Rest(turns))
  }

  /** One call of a pass, with the store just before and just after it. */
  datatype Event = Event(pass: Pass, before: Store, reply: Reply, after: Store)

  ghost predicate Answered(e: Event) {
    && !e.pass.pc.Done?
    && ((e.after, e.reply) == Apply(e.before, Ask(e.pass)) || (e.after == e.before && e.reply == Transient))
  }

  ghost predicate Follows(d: Event, e: Event) {
    && !d.pass.pc.Done?
    && e.pass == Resume(d.pass, d.reply)
    && Evolves(d.after, e.before)
  }

  /**
   The calls of a pass so far, in any environment: between two calls every object may be changed,
   deleted or recreated by anyone. A prefix is what a crash leaves.
   */
  ghost predicate Legal(id: Id, trace: seq<Event>) {
    && (forall i | 0 <= i < |trace| :: Answered(trace[i]) && Valid(trace[i].before))
    && (trace != [] ==> trace[0].pass == Begin(id))
    && (forall i | 0 < i < |trace| :: Follows(trace[i - 1], trace[i]))
  }

  ghost function TraceOf(s: Store, p: Pass, turns: seq<Turn>): seq<Event>
    decreases Stage(p.pc), ClaimsLeft(p)
  {
    if p.pc.Done? then
      []
    else
      var (t, reply) := Answer(s, Ask(p), Next(turns));
      ResumeDescends(p, reply);
      [Event(p, ApplyAll(s, Next(turns).others), reply, t)] + TraceOf(t, Resume(p, reply), Rest(turns))
  }

  /** Every scripted run is legal, so what holds of all legal traces holds of it. */
  lemma {:induction false} TraceIsLegal(s: Store, p: Pass, turns: seq<Turn>)
    requires Valid(s)
    ensures var trace := TraceOf(s, p, turns);
            && (forall i | 0 <= i < |trace| :: Answered(trace[i]) && Valid(trace[i].before))
            && (forall i | 0 < i < |trace| :: Follows(trace[i - 1], trace[i]))
            && (trace != [] ==> trace[0].pass == p && Evolves(s, trace[0].before))
            && (p.pc.Done? <==> trace == [])
    decreases Stage(p.pc), ClaimsLeft(p)
  {
    if !p.pc.Done? {
      var before := ApplyAll(s, Next(turns).others);
      ApplyAllEvolves(s, Next(turns).others);
      ApplyEvolves(before, Ask(p));
      var (t, reply) := Answer(s, Ask(p), Next(turns));
      ResumeDescends(p, reply);
      TraceIsLegal(t, Resume(p, reply), Rest(turns));
      var tail := TraceOf(t, Resume(p, reply), Rest(turns));
      var trace := TraceOf(s, p, turns);
      assert trace[1..] == tail;
      forall i | 0 < i < |trace| ensures Follows(trace[i - 1], trace[i]) {
        assert trace[i] == tail[i - 1];
        if i > 1 { assert trace[i - 1] == tail[i - 2]; }
      }
    }
  }
}

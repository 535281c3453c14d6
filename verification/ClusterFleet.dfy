/**
 All GroupReplicationClusters at once: passes for different names interleave call by call, any call may
 fail, the operator may crash between calls, and users create, edit and delete the custom resources.
 Nobody but these passes touches the children.
 */
module ClusterFleet {
  import opened Api
  import opened Kube
  import opened Names
  import opened ClusterPass

  datatype Worker = Worker(pass: Pass, wrote: bool)

  /** `writers` counts, for each name, the passes so far that created something. */
  datatype System = System(store: Store, passes: map<Id, Worker>, writers: map<Id, nat>)

  datatype Action = Start(id: Id, uuid: string) | Call(id: Id) | Fault(id: Id) | Crash(id: Id) | ByUser(req: Request)

  const EMPTY := System(map[], map[], map[])

  function Writers(sys: System, id: Id): nat {
    if id in sys.writers then sys.writers[id] else 0
  }

  predicate Running(sys: System, id: Id) {
    id in sys.passes && !sys.passes[id].pass.pc.Done?
  }

  predicate UserMay(req: Request) {
    req.key.kind == ClusterKind || req.key.kind == InstanceKind
  }

  function Act(sys: System, a: Action): System {
    match a
    case Start(id, uuid) =>
      if Running(sys, id) then sys else sys.(passes := sys.passes[id := Worker(Begin(id, uuid), false)])
    case Call(id) =>
      if !Running(sys, id) then
        sys
      else
        var w := sys.passes[id];
        var (t, reply) := Apply(sys.store, Ask(w.pass));
        var wrote := w.wrote || (Ask(w.pass).verb.Create? && reply.Ok?);
        System(t, sys.passes[id := Worker(Resume(w.pass, reply), wrote)],
               if wrote && !w.wrote then sys.writers[id := Writers(sys, id) + 1] else sys.writers)
    case Fault(id) =>
      if !Running(sys, id) then
        sys
      else
        var w := sys.passes[id];
        sys.(passes := sys.passes[id := w.(pass := Resume(w.pass, Transient))])
    case Crash(id) => sys.(passes := sys.passes - {id})
    case ByUser(req) => if UserMay(req) then sys.(store := Apply(sys.store, req).0) else sys
  }

  function Execute(sys: System, actions: seq<Action>): System
    decreases |actions|
  {
    if actions == [] then sys else Act(Execute(sys, actions[..|actions| - 1]), actions[|actions| - 1])
  }

  // ----- The children of one name -----

  /** Which children exist, and the cell of the custom resource. */
  datatype Scene = Scene(cluster: Cell, secret: Cell, config: Cell, claim: Cell, set_: Cell, headless: Cell)

  ghost function SceneOf(s: Store, id: Id): Scene {
    Scene(CellAt(s, ClusterKey(id)), CellAt(s, SecretKey(id)), CellAt(s, MemberConfigKey(id, 1)),
          CellAt(s, MemberClaimKey(id, 1)), CellAt(s, StatefulSetKey(id)), CellAt(s, HeadlessKey(id)))
  }

  /** A prefix of Secret, ConfigMap, claim, StatefulSet, headless Service; or a prefix of Secret, headless Service. */
  ghost predicate InOrder(sc: Scene) {
    && (sc.config.live.Some? ==> sc.secret.live.Some?)
    && (sc.claim.live.Some? ==> sc.config.live.Some?)
    && (sc.set_.live.Some? ==> sc.claim.live.Some?)
    && (sc.headless.live.Some? ==> sc.secret.live.Some? && (sc.set_.live.Some? || sc.config.live.None?))
  }

  /** The pass is past the Secret and has created all that exists. */
  ghost predicate Building(sc: Scene, pc: Pc) {
    && sc.secret.live.Some?
    && (pc.FindConfig? || pc.MakeConfig? ==> sc.config.live.None? && sc.headless.live.None?)
    && (pc.MakeClaim? ==> sc.config.live.Some? && sc.claim.live.None? && sc.headless.live.None?)
    && (pc.MakeSet? ==> sc.claim.live.Some? && sc.set_.live.None? && sc.headless.live.None?)
    && (pc.MakeHeadless? ==> sc.headless.live.None? && (sc.set_.live.Some? || sc.config.live.None?))
    && !pc.FetchCluster? && !pc.FindSet? && !pc.MakeSecret?
  }

  ghost predicate Stands(sc: Scene, w: Worker) {
    && Ordinal(w.pass.pc) == 1
    && (if w.wrote then Building(sc, w.pass.pc)
        else w.pass.pc.FetchCluster? || w.pass.pc.FindSet? || w.pass.pc.MakeSecret? || w.pass.pc.Done?)
  }

  /** The Secret exists exactly if some pass has written, and then it was one. */
  ghost predicate OneWriter(sc: Scene, writers: nat) {
    writers == if sc.secret.live.Some? then 1 else 0
  }

  datatype Place = AtCluster | AtSecret | AtConfig | AtClaim | AtSet | AtHeadless

  function PlaceOf(pc: Pc): Place {
    match pc
    case FetchCluster => AtCluster
    case FindSet => AtSet
    case MakeSecret => AtSecret
    case FindConfig(_) => AtConfig
    case MakeConfig(_) => AtConfig
    case MakeClaim(_) => AtClaim
    case MakeSet(_) => AtSet
    case MakeHeadless => AtHeadless
    case Done(_) => AtCluster
  }

  function CellIn(sc: Scene, place: Place): Cell {
    match place
    case AtCluster => sc.cluster
    case AtSecret => sc.secret
    case AtConfig => sc.config
    case AtClaim => sc.claim
    case AtSet => sc.set_
    case AtHeadless => sc.headless
  }

  function Shift(sc: Scene, place: Place, c: Cell): Scene {
    match place
    case AtCluster => sc.(cluster := c)
    case AtSecret => sc.(secret := c)
    case AtConfig => sc.(config := c)
    case AtClaim => sc.(claim := c)
    case AtSet => sc.(set_ := c)
    case AtHeadless => sc.(headless := c)
  }

  lemma ApplyElsewhere(s: Store, req: Request)
    ensures forall k | k != req.key :: CellAt(Apply(s, req).0, k) == CellAt(s, k)
  {
  }

  lemma SceneAfter(s: Store, p: Pass)
    requires !p.pc.Done? && Ordinal(p.pc) == 1
    ensures var sc, place := SceneOf(s, p.id), PlaceOf(p.pc);
            && SceneOf(Apply(s, Ask(p)).0, p.id) == Shift(sc, place, Serve(CellIn(sc, place), Ask(p).verb).0)
            && Apply(s, Ask(p)).1 == Serve(CellIn(sc, place), Ask(p).verb).1
  {
    ApplyElsewhere(s, Ask(p));
  }

  /** One call of a pass, on its scene: order, the pass's own knowledge, and the number of writers are kept. */
  lemma CallKeeps(sc: Scene, w: Worker, writers: nat)
    requires InOrder(sc) && Stands(sc, w) && OneWriter(sc, writers) && !w.pass.pc.Done?
    ensures var place, verb := PlaceOf(w.pass.pc), Ask(w.pass).verb;
            var (c, reply) := Serve(CellIn(sc, place), verb);
            var sc' := Shift(sc, place, c);
            var wrote := w.wrote || (verb.Create? && reply.Ok?);
            && InOrder(sc') && Stands(sc', Worker(Resume(w.pass, reply), wrote))
            && OneWriter(sc', if wrote && !w.wrote then writers + 1 else writers)
  {
  }

  // ----- The invariant of the whole system -----

  ghost predicate Invariant(sys: System) {
    && (forall id :: InOrder(SceneOf(sys.store, id)) && OneWriter(SceneOf(sys.store, id), Writers(sys, id)))
    && (forall id | id in sys.passes ::
          sys.passes[id].pass.id == id && Stands(SceneOf(sys.store, id), sys.passes[id]))
  }

  ghost predicate InScene(id: Id, k: Key) {
    || k == ClusterKey(id) || k == SecretKey(id) || k == MemberConfigKey(id, 1) || k == MemberClaimKey(id, 1)
    || k == StatefulSetKey(id) || k == HeadlessKey(id)
  }

  lemma OwnsScene(id: Id, k: Key)
    requires InScene(id, k)
    ensures ClusterOwns(id, k)
  {
  }

  lemma ApplyUnowned(s: Store, req: Request, id: Id)
    requires !InScene(id, req.key)
    ensures SceneOf(Apply(s, req).0, id) == SceneOf(s, id)
  {
    ApplyElsewhere(s, req);
  }

  lemma CallElsewhere(s: Store, p: Pass, id: Id)
    requires !p.pc.Done? && id != p.id
    ensures SceneOf(Apply(s, Ask(p)).0, id) == SceneOf(s, id)
  {
    hide Ask, Apply, ClusterOwns, InScene;
    AskOwned(p);
    if InScene(id, Ask(p).key) {
      OwnsScene(id, Ask(p).key);
      ClustersOwnApart(id, p.id, Ask(p).key);
    } else {
      ApplyUnowned(s, Ask(p), id);
    }
  }

  lemma ResumeId(p: Pass, reply: Reply)
    requires !p.pc.Done?
    ensures Resume(p, reply).id == p.id
  {
  }

  lemma CallKeepsInvariant(sys: System, id: Id)
    requires Invariant(sys) && Running(sys, id)
    ensures Invariant(Act(sys, Call(id)))
  {
    hide Ask, Resume, Apply, Serve, SceneOf, InOrder, OneWriter, Shift, CellIn;
    var w := sys.passes[id];
    var (t, reply) := Apply(sys.store, Ask(w.pass));
    SceneAfter(sys.store, w.pass);
    CallKeeps(SceneOf(sys.store, id), w, Writers(sys, id));
    ResumeId(w.pass, reply);
    forall other | other != id ensures SceneOf(t, other) == SceneOf(sys.store, other) {
      CallElsewhere(sys.store, w.pass, other);
    }
  }

  lemma FaultKeepsInvariant(sys: System, id: Id)
    requires Invariant(sys) && Running(sys, id)
    ensures Invariant(Act(sys, Fault(id)))
  {
    hide SceneOf, InOrder, OneWriter;
  }

  lemma UserKeepsInvariant(sys: System, req: Request)
    requires Invariant(sys) && UserMay(req)
    ensures Invariant(Act(sys, ByUser(req)))
  {
    hide Apply;
    ApplyElsewhere(sys.store, req);
    var t := Apply(sys.store, req).0;
    forall id ensures SceneOf(t, id) == SceneOf(sys.store, id).(cluster := CellAt(t, ClusterKey(id))) {
    }
  }

  lemma ActKeepsInvariant(sys: System, a: Action)
    requires Invariant(sys)
    ensures Invariant(Act(sys, a))
  {
    hide Ask, Resume, Apply, SceneOf, InOrder, OneWriter;
    match a
    case Call(id) => if Running(sys, id) { CallKeepsInvariant(sys, id); }
    case Fault(id) => if Running(sys, id) { FaultKeepsInvariant(sys, id); }
    case ByUser(req) => if UserMay(req) { UserKeepsInvariant(sys, req); }
    case Start(_, _) =>
    case Crash(_) =>
  }

  lemma {:induction false} ExecuteKeepsInvariant(actions: seq<Action>)
    ensures Invariant(Execute(EMPTY, actions))
    decreases |actions|
  {
    if actions != [] {
      ExecuteKeepsInvariant(actions[..|actions| - 1]);
      ActKeepsInvariant(Execute(EMPTY, actions[..|actions| - 1]), actions[|actions| - 1]);
    }
  }

  // ----- What holds after every run -----

  /**
   At most one pass of a name ever creates anything, and it has iff the Secret exists. The children form a prefix of
   Secret, ConfigMap 1, claim 1, StatefulSet, headless Service, or of Secret, headless Service. No pass gets to ordinal 2.
   */
  lemma OneWritingPass(actions: seq<Action>, id: Id)
    ensures var sys := Execute(EMPTY, actions); var s := sys.store;
            && Writers(sys, id) == (if Alive(s, SecretKey(id)) then 1 else 0)
            && (Alive(s, MemberConfigKey(id, 1)) ==> Alive(s, SecretKey(id)))
            && (Alive(s, MemberClaimKey(id, 1)) ==> Alive(s, MemberConfigKey(id, 1)))
            && (Alive(s, StatefulSetKey(id)) ==> Alive(s, MemberClaimKey(id, 1)))
            && (Alive(s, HeadlessKey(id)) ==>
                  Alive(s, SecretKey(id)) && (Alive(s, StatefulSetKey(id)) || !Alive(s, MemberConfigKey(id, 1))))
            && (id in sys.passes ==> Ordinal(sys.passes[id].pass.pc) == 1)
  {
    ExecuteKeepsInvariant(actions);
    var s := Execute(EMPTY, actions).store;
    assert InOrder(SceneOf(s, id));
  }

  // ----- When the primary member always has a size -----

  predicate Sized(o: Obj) {
    ClusterOf(o).members != [] && ClusterOf(o).members[0].size.Some?
  }

  predicate SizedDraft(d: Draft) {
    d.body.Cluster? && d.body.cluster.members != [] && d.body.cluster.members[0].size.Some?
  }

  predicate SizedRequest(req: Request) {
    req.key.kind == ClusterKind && (req.verb.Create? || req.verb.Update?) ==> SizedDraft(req.verb.draft)
  }

  ghost predicate SizedScene(sc: Scene) {
    && (sc.cluster.live.Some? ==> Sized(sc.cluster.live.value))
    && (sc.headless.live.Some? ==> sc.set_.live.Some?)
  }

  ghost predicate SizedWorker(sc: Scene, w: Worker) {
    && (!w.pass.pc.FetchCluster? && !w.pass.pc.Done? ==> Sized(w.pass.mgr))
    && (w.pass.pc.MakeHeadless? ==> sc.set_.live.Some?)
  }

  ghost predicate SizedSystem(sys: System) {
    && (forall id :: SizedScene(SceneOf(sys.store, id)))
    && (forall id | id in sys.passes :: SizedWorker(SceneOf(sys.store, id), sys.passes[id]))
  }

  lemma SizedCallKeeps(sc: Scene, w: Worker)
    requires InOrder(sc) && Stands(sc, w) && SizedScene(sc) && SizedWorker(sc, w) && !w.pass.pc.Done?
    ensures var place := PlaceOf(w.pass.pc);
            var (c, reply) := Serve(CellIn(sc, place), Ask(w.pass).verb);
            SizedScene(Shift(sc, place, c)) && SizedWorker(Shift(sc, place, c), w.(pass := Resume(w.pass, reply)))
  {
  }

  lemma SizedServe(c: Cell, verb: Verb)
    requires c.live.Some? ==> Sized(c.live.value)
    requires verb.Create? || verb.Update? ==> SizedDraft(verb.draft)
    ensures var d := Serve(c, verb).0; d.live.Some? ==> Sized(d.live.value)
  {
  }

  lemma SizedCall(sys: System, id: Id)
    requires Invariant(sys) && SizedSystem(sys) && Running(sys, id)
    ensures SizedSystem(Act(sys, Call(id)))
  {
    hide Ask, Resume, Apply, Serve, SceneOf, InOrder, Stands, SizedScene, Shift, CellIn;
    var w := sys.passes[id];
    var t := Apply(sys.store, Ask(w.pass)).0;
    assert Ordinal(w.pass.pc) == 1 by { StandsAtOne(SceneOf(sys.store, id), w); }
    SceneAfter(sys.store, w.pass);
    SizedCallKeeps(SceneOf(sys.store, id), w);
    forall other | other != id ensures SceneOf(t, other) == SceneOf(sys.store, other) {
      CallElsewhere(sys.store, w.pass, other);
    }
  }

  lemma StandsAtOne(sc: Scene, w: Worker)
    requires Stands(sc, w)
    ensures Ordinal(w.pass.pc) == 1
  {
  }

  lemma SizedUser(sys: System, req: Request)
    requires SizedSystem(sys) && UserMay(req) && SizedRequest(req)
    ensures SizedSystem(Act(sys, ByUser(req)))
  {
    hide Apply, Serve;
    var t := Apply(sys.store, req).0;
    forall id ensures SceneOf(t, id) == SceneOf(sys.store, id).(cluster := CellAt(t, ClusterKey(id)))
              ensures SizedScene(SceneOf(t, id))
    {
      assert SizedScene(SceneOf(sys.store, id));
      ApplyElsewhere(sys.store, req);
      ApplyAt(sys.store, req, ClusterKey(id));
      if req.key == ClusterKey(id) {
        SizedServe(SceneOf(sys.store, id).cluster, req.verb);
      }
    }
  }

  lemma {:induction false} ExecuteSized(actions: seq<Action>)
    requires forall a | a in actions && a.ByUser? :: SizedRequest(a.req)
    ensures SizedSystem(Execute(EMPTY, actions))
    decreases |actions|
  {
    if actions != [] {
      var before := actions[..|actions| - 1];
      ExecuteKeepsInvariant(before);
      ExecuteSized(before);
      SizedAct(Execute(EMPTY, before), actions[|actions| - 1]);
    }
  }

  lemma SizedAct(sys: System, a: Action)
    requires Invariant(sys) && SizedSystem(sys) && (a.ByUser? ==> SizedRequest(a.req))
    ensures SizedSystem(Act(sys, a))
  {
    hide Ask, Resume, Apply, SceneOf, SizedScene, Invariant;
    match a
    case Call(id) => if Running(sys, id) { SizedCall(sys, id); }
    case Fault(id) => if Running(sys, id) { SizedFault(SceneOf(sys.store, id), sys.passes[id]); }
    case ByUser(req) => if UserMay(req) { SizedUser(sys, req); }
    case Start(_, _) =>
    case Crash(_) =>
  }

  lemma SizedFault(sc: Scene, w: Worker)
    requires SizedWorker(sc, w) && !w.pass.pc.Done?
    ensures SizedWorker(sc, w.(pass := Resume(w.pass, Transient)))
  {
  }

  /** If every custom resource written by users gives the first member a size, the children form a prefix of the full list. */
  lemma SizedChildrenPrefix(actions: seq<Action>, id: Id)
    requires forall a | a in actions && a.ByUser? :: SizedRequest(a.req)
    ensures var s := Execute(EMPTY, actions).store;
            && (Alive(s, HeadlessKey(id)) ==> Alive(s, StatefulSetKey(id)))
            && (Alive(s, StatefulSetKey(id)) ==> Alive(s, MemberClaimKey(id, 1)))
            && (Alive(s, MemberClaimKey(id, 1)) ==> Alive(s, MemberConfigKey(id, 1)))
            && (Alive(s, MemberConfigKey(id, 1)) ==> Alive(s, SecretKey(id)))
  {
    OneWritingPass(actions, id);
    ExecuteSized(actions);
    assert SizedScene(SceneOf(Execute(EMPTY, actions).store, id));
  }

  // ----- An interrupted creation is never taken up again -----

  /** The Secret exists and no running pass is the one that wrote it. */
  ghost predicate Abandoned(sys: System, id: Id) {
    && Alive(sys.store, SecretKey(id))
    && (Running(sys, id) ==> !sys.passes[id].wrote)
  }

  ghost predicate SameChildren(s: Store, t: Store, id: Id) {
    && Alive(t, SecretKey(id))
    && CellAt(s, MemberConfigKey(id, 1)) == CellAt(t, MemberConfigKey(id, 1))
    && CellAt(s, MemberClaimKey(id, 1)) == CellAt(t, MemberClaimKey(id, 1))
    && CellAt(s, StatefulSetKey(id)) == CellAt(t, StatefulSetKey(id))
    && CellAt(s, HeadlessKey(id)) == CellAt(t, HeadlessKey(id))
  }

  lemma AbandonedCall(s: Store, w: Worker)
    requires Stands(SceneOf(s, w.pass.id), w) && !w.wrote && !w.pass.pc.Done? && Alive(s, SecretKey(w.pass.id))
    ensures var (t, reply) := Apply(s, Ask(w.pass)); t == s && !(Ask(w.pass).verb.Create? && reply.Ok?)
  {
  }

  lemma AbandonedAct(sys: System, a: Action, id: Id)
    requires Invariant(sys) && Abandoned(sys, id)
    ensures Abandoned(Act(sys, a), id) && SameChildren(sys.store, Act(sys, a).store, id)
  {
    hide Ask, Resume, Apply, InOrder, OneWriter, Stands;
    match a
    case Call(x) =>
      if Running(sys, x) {
        if x == id {
          AbandonedCall(sys.store, sys.passes[x]);
        } else {
          CallElsewhere(sys.store, sys.passes[x].pass, id);
          assert SceneOf(sys.store, id).secret == CellAt(sys.store, SecretKey(id));
          SceneSame(sys.store, Act(sys, a).store, id);
        }
      }
    case ByUser(req) => ApplyElsewhere(sys.store, req);
    case _ =>
  }

  lemma SceneSame(s: Store, t: Store, id: Id)
    requires SceneOf(s, id) == SceneOf(t, id) && Alive(s, SecretKey(id))
    ensures SameChildren(s, t, id)
  {
  }

  /** Once the pass that created the Secret is over, the children stay as they are: what it left out is never created. */
  lemma {:induction false} NeverCompleted(actions: seq<Action>, more: seq<Action>, id: Id)
    requires Abandoned(Execute(EMPTY, actions), id)
    ensures var sys, end := Execute(EMPTY, actions), Execute(EMPTY, actions + more);
            Abandoned(end, id) && SameChildren(sys.store, end.store, id)
    decreases |more|
  {
    if more == [] {
      assert actions + more == actions;
    } else {
      var before, a := more[..|more| - 1], more[|more| - 1];
      NeverCompleted(actions, before, id);
      assert (actions + more)[..|actions + more| - 1] == actions + before;
      ExecuteKeepsInvariant(actions + before);
      AbandonedAct(Execute(EMPTY, actions + before), a, id);
    }
  }
}

/**
 When the creation of a cluster does complete: retrying passes while nobody else interferes and no call fails.

 All five children come to exist exactly if they exist already, or the first member has a size and
 Secret, claim 1 and StatefulSet are all absent; and then the very first pass is enough.
 */
module ClusterConvergence {
  import opened Api
  import opened Kube
  import opened Names
  import opened ClusterPass
  import opened ClusterFleet

  // ----- A quiet pass on its scene -----

  /** One call that neither fails nor is interfered with. */
  ghost function One(sc: Scene, p: Pass): (Scene, Pass)
    requires !p.pc.Done?
  {
    var (c, reply) := Serve(CellIn(sc, PlaceOf(p.pc)), Ask(p).verb);
    (Shift(sc, PlaceOf(p.pc), c), Resume(p, reply))
  }

  ghost function Play(sc: Scene, p: Pass): (Scene, Pass)
    decreases Stage(p.pc)
  {
    if p.pc.Done? then
      (sc, p)
    else
      ResumeDescends(p, Serve(CellIn(sc, PlaceOf(p.pc)), Ask(p).verb).1);
      var (sc', p') := One(sc, p);
      Play(sc', p')
  }

  lemma {:induction false} PlayIsRun(s: Store, p: Pass)
    requires Ordinal(p.pc) == 1
    ensures var (t, q) := Run(s, p, []);
            SceneOf(t, p.id) == Play(SceneOf(s, p.id), p).0 && q == Play(SceneOf(s, p.id), p).1
    decreases Stage(p.pc)
  {
    hide Ask, Resume, Serve, SceneOf, Stage, Shift, CellIn, Ordinal;
    if !p.pc.Done? {
      var (t, reply) := Apply(s, Ask(p));
      assert ApplyAll(s, []) == s;
      assert Answer(s, Ask(p), Next([])) == (t, reply);
      SceneAfter(s, p);
      ResumeDescends(p, reply);
      ResumeId(p, reply);
      NeverOrdinalTwo(p, reply);
      PlayIsRun(t, Resume(p, reply));
    }
  }

  lemma PlayOne(sc: Scene, p: Pass, sc1: Scene, p1: Pass)
    requires !p.pc.Done? && One(sc, p) == (sc1, p1)
    ensures Play(sc, p) == Play(sc1, p1)
  {
    hide Ask, Resume, Serve, Shift, CellIn;
  }

  lemma PlayDone(sc: Scene, p: Pass)
    requires p.pc.Done?
    ensures Play(sc, p) == (sc, p)
  {
  }

  // ----- Creating -----

  function Made(c: Cell, d: Draft): Cell {
    Serve(c, Create(d)).0
  }

  /** The cell holds an object made from this draft. */
  ghost predicate Holds(c: Cell, d: Draft) {
    c.live.Some? && DraftOf(c.live.value) == d
  }

  lemma MadeCell(c: Cell, d: Draft)
    requires !d.body.Instance?
    ensures var reply := Serve(c, Create(d)).1;
            && (reply.Ok? <==> c.live.None?)
            && (c.live.Some? ==> Made(c, d) == c)
            && (c.live.None? ==> Holds(Made(c, d), d))
  {
  }

  lemma NoDraftIsInstance(p: Pass)
    ensures !NewSecret(p.id, p.mgr).body.Instance? && !NewConfigMap(p, 1).body.Instance? && !NewClaim(p.mgr).body.Instance?
    ensures !NewStatefulSet(p.id, p.mgr, 1).body.Instance? && !NewHeadless(p.id, p.mgr).body.Instance?
  {
  }

  /** From the Secret on, for a sized cluster: each creation up to the first that finds its object there already. */
  lemma MakeSecretPlay(sc: Scene, p: Pass)
    requires p.pc.MakeSecret? && Sized(p.mgr)
    ensures var sc1 := sc.(secret := Made(sc.secret, NewSecret(p.id, p.mgr)));
            Play(sc, p) == if sc.secret.live.Some? then (sc, Stop(p, true)) else Play(sc1, p.(pc := FindConfig(1)))
  {
    hide Play, NewSecret;
    NoDraftIsInstance(p);
    MadeCell(sc.secret, NewSecret(p.id, p.mgr));
    var sc1 := sc.(secret := Made(sc.secret, NewSecret(p.id, p.mgr)));
    if sc.secret.live.Some? {
      PlayOne(sc, p, sc, Stop(p, true));
      PlayDone(sc, Stop(p, true));
    } else {
      PlayOne(sc, p, sc1, p.(pc := FindConfig(1)));
    }
  }

  lemma FindConfigPlay(sc: Scene, p: Pass)
    requires p.pc == FindConfig(1)
    ensures var sc1 := sc.(config := Made(sc.config, NewConfigMap(p, 1))); Play(sc, p) == Play(sc1, p.(pc := MakeClaim(1)))
    ensures sc.config.live.Some? ==> Made(sc.config, NewConfigMap(p, 1)) == sc.config
    ensures sc.config.live.None? ==> Holds(Made(sc.config, NewConfigMap(p, 1)), NewConfigMap(p, 1))
  {
    hide Play;
    var sc1 := sc.(config := Made(sc.config, NewConfigMap(p, 1)));
    if sc.config.live.Some? {
      PlayOne(sc, p, sc, p.(pc := MakeClaim(1)));
    } else {
      PlayOne(sc, p, sc, p.(pc := MakeConfig(1)));
      PlayOne(sc, p.(pc := MakeConfig(1)), sc1, p.(pc := MakeClaim(1)));
    }
  }

  lemma MakeClaimPlay(sc: Scene, p: Pass)
    requires p.pc == MakeClaim(1)
    ensures var sc1 := sc.(claim := Made(sc.claim, NewClaim(p.mgr)));
            Play(sc, p) == if sc.claim.live.Some? then (sc, Stop(p, true)) else Play(sc1, p.(pc := MakeSet(1)))
  {
    hide Play;
    var sc1 := sc.(claim := Made(sc.claim, NewClaim(p.mgr)));
    if sc.claim.live.Some? {
      PlayOne(sc, p, sc, Stop(p, true));
      PlayDone(sc, Stop(p, true));
    } else {
      PlayOne(sc, p, sc1, p.(pc := MakeSet(1)));
    }
  }

  lemma MakeSetPlay(sc: Scene, p: Pass)
    requires p.pc == MakeSet(1) && Sized(p.mgr) && sc.set_.live.None?
    ensures var sc1 := sc.(set_ := Made(sc.set_, NewStatefulSet(p.id, p.mgr, 1)));
            Play(sc, p) == Play(sc1, p.(pc := MakeHeadless))
  {
    hide Play, NewStatefulSet;
    NoDraftIsInstance(p);
    MadeCell(sc.set_, NewStatefulSet(p.id, p.mgr, 1));
    PlayOne(sc, p, sc.(set_ := Made(sc.set_, NewStatefulSet(p.id, p.mgr, 1))), p.(pc := MakeHeadless));
  }

  lemma MakeHeadlessPlay(sc: Scene, p: Pass)
    requires p.pc.MakeHeadless?
    ensures Play(sc, p) == (sc.(headless := Made(sc.headless, NewHeadless(p.id, p.mgr))), Stop(p, sc.headless.live.Some?))
  {
    hide Play, NewHeadless;
    NoDraftIsInstance(p);
    MadeCell(sc.headless, NewHeadless(p.id, p.mgr));
    var sc1, q := sc.(headless := Made(sc.headless, NewHeadless(p.id, p.mgr))), Stop(p, sc.headless.live.Some?);
    PlayOne(sc, p, sc1, q);
    PlayDone(sc1, q);
  }

  /** What creation makes of the scene of a sized cluster: everything up to the first Create that is refused. */
  ghost function Built(sc: Scene, p: Pass): Scene {
    var sc1 := sc.(secret := Made(sc.secret, NewSecret(p.id, p.mgr)), config := Made(sc.config, NewConfigMap(p, 1)));
    if sc.secret.live.Some? then sc
    else if sc.claim.live.Some? then sc1
    else
      sc1.(claim := Made(sc.claim, NewClaim(p.mgr)),
           set_ := Made(sc.set_, NewStatefulSet(p.id, p.mgr, 1)),
           headless := Made(sc.headless, NewHeadless(p.id, p.mgr)))
  }

  lemma BuildPlay(sc: Scene, p: Pass)
    requires p.pc.MakeSecret? && Sized(p.mgr) && sc.set_.live.None?
    ensures Play(sc, p) ==
            (Built(sc, p), Stop(p, sc.secret.live.Some? || sc.claim.live.Some? || sc.headless.live.Some?))
  {
    hide Play, Made, NewSecret, NewClaim, NewStatefulSet, NewHeadless, Sized;
    MakeSecretPlay(sc, p);
    if sc.secret.live.None? {
      var sc1 := sc.(secret := Made(sc.secret, NewSecret(p.id, p.mgr)));
      FindConfigPlay(sc1, p.(pc := FindConfig(1)));
      var sc2 := sc1.(config := Made(sc.config, NewConfigMap(p, 1)));
      MakeClaimPlay(sc2, p.(pc := MakeClaim(1)));
      if sc.claim.live.None? {
        var sc3 := sc2.(claim := Made(sc.claim, NewClaim(p.mgr)));
        MakeSetPlay(sc3, p.(pc := MakeSet(1)));
        var sc4 := sc3.(set_ := Made(sc.set_, NewStatefulSet(p.id, p.mgr, 1)));
        MakeHeadlessPlay(sc4, p.(pc := MakeHeadless));
      }
    }
  }

  /** Without a size the ordinal loop is skipped: no StatefulSet is made. */
  lemma UnsizedPlay(sc: Scene, p: Pass)
    requires p.pc.MakeSecret? && !Sized(p.mgr)
    ensures var (r, q) := Play(sc, p);
            && r.cluster == sc.cluster && r.set_ == sc.set_ && r.secret.live.Some?
            && q.pc == Done(sc.secret.live.Some? || ClusterOf(p.mgr).members == [] || sc.headless.live.Some?)
  {
    hide Play, NewSecret;
    NoDraftIsInstance(p);
    MadeCell(sc.secret, NewSecret(p.id, p.mgr));
    var sc1 := sc.(secret := Made(sc.secret, NewSecret(p.id, p.mgr)));
    if sc.secret.live.Some? {
      PlayOne(sc, p, sc, Stop(p, true));
      PlayDone(sc, Stop(p, true));
    } else if ClusterOf(p.mgr).members == [] {
      PlayOne(sc, p, sc1, Stop(p, true));
      PlayDone(sc1, Stop(p, true));
    } else {
      PlayOne(sc, p, sc1, p.(pc := MakeHeadless));
      MakeHeadlessPlay(sc1, p.(pc := MakeHeadless));
    }
  }

  // ----- A round -----

  ghost predicate All(sc: Scene) {
    && sc.secret.live.Some? && sc.config.live.Some? && sc.claim.live.Some? && sc.set_.live.Some? && sc.headless.live.Some?
  }

  /** A sized custom resource, and nothing in the way of its Secret, its claim and its StatefulSet. */
  ghost predicate Open(sc: Scene) {
    && sc.cluster.live.Some? && Sized(sc.cluster.live.value)
    && sc.secret.live.None? && sc.claim.live.None? && sc.set_.live.None?
  }

  /** A pass has something to do: the custom resource is there and its StatefulSet is not. */
  ghost predicate Wanting(sc: Scene) {
    sc.cluster.live.Some? && sc.set_.live.None?
  }

  lemma BeginPlay(sc: Scene, id: Id, uuid: string)
    ensures var p := Begin(id, uuid);
            if Wanting(sc) then
              Play(sc, p) == Play(sc, Pass(id, uuid, sc.cluster.live.value, MakeSecret))
            else
              Play(sc, p).0 == sc && Play(sc, p).1.pc == Done(false)
  {
    hide Play;
    var p := Begin(id, uuid);
    if sc.cluster.live.None? {
      PlayOne(sc, p, sc, Stop(p, false));
      PlayDone(sc, Stop(p, false));
    } else {
      var q := Pass(id, uuid, sc.cluster.live.value, FindSet);
      PlayOne(sc, p, sc, q);
      if sc.set_.live.Some? {
        PlayOne(sc, q, sc, Stop(q, false));
        PlayDone(sc, Stop(q, false));
      } else {
        PlayOne(sc, q, sc, q.(pc := MakeSecret));
      }
    }
  }

  /** Where there is something to do, the pass fails unless every object it sets out to create is absent. */
  ghost predicate Fails(sc: Scene) {
    && Wanting(sc)
    && var mgr := sc.cluster.live.value;
       || sc.secret.live.Some? || sc.headless.live.Some? || ClusterOf(mgr).members == []
       || (Sized(mgr) && sc.claim.live.Some?)
  }

  /**
   One quiet pass, from any state of the six cells. It ends with all five children exactly if they were there or the
   way was open; and where it does not, the way is not open afterwards.
   */
  lemma OneRound(sc: Scene, id: Id, uuid: string)
    ensures var (r, p) := Play(sc, Begin(id, uuid));
            && (All(r) <==> All(sc) || Open(sc))
            && (!All(r) ==> !Open(r))
            && p.pc == Done(Fails(sc))
            && (All(sc) ==> r == sc)
            && (Open(sc) ==> r == Built(sc, Pass(id, uuid, sc.cluster.live.value, MakeSecret)))
  {
    hide Play, Built, Sized, ClusterOf;
    BeginPlay(sc, id, uuid);
    if Wanting(sc) {
      var p := Pass(id, uuid, sc.cluster.live.value, MakeSecret);
      if Sized(p.mgr) {
        BuildPlay(sc, p);
        BuiltAll(sc, p);
      } else {
        UnsizedPlay(sc, p);
      }
    }
  }

  lemma BuiltAll(sc: Scene, p: Pass)
    requires Wanting(sc) && p.pc.MakeSecret? && Sized(p.mgr) && p.mgr == sc.cluster.live.value
    ensures var r := Built(sc, p);
            && (All(r) <==> Open(sc))
            && r.secret.live.Some?
            && (Sized(p.mgr) ==> ClusterOf(p.mgr).members != [])
  {
    hide NewSecret, NewConfigMap, NewClaim, NewStatefulSet, NewHeadless;
    MadeLive(sc.secret, NewSecret(p.id, p.mgr));
    MadeLive(sc.config, NewConfigMap(p, 1));
    MadeLive(sc.claim, NewClaim(p.mgr));
    MadeLive(sc.set_, NewStatefulSet(p.id, p.mgr, 1));
    MadeLive(sc.headless, NewHeadless(p.id, p.mgr));
  }

  lemma MadeLive(c: Cell, d: Draft)
    ensures Made(c, d).live.Some?
  {
  }

  lemma BuiltHolds(sc: Scene, p: Pass)
    requires Open(sc) && sc.config.live.None? && sc.headless.live.None?
    ensures var r := Built(sc, p);
            && r.cluster == sc.cluster
            && Holds(r.secret, NewSecret(p.id, p.mgr))
            && Holds(r.config, NewConfigMap(p, 1))
            && Holds(r.claim, NewClaim(p.mgr))
            && Holds(r.set_, NewStatefulSet(p.id, p.mgr, 1))
            && Holds(r.headless, NewHeadless(p.id, p.mgr))
  {
    hide Holds, NewSecret, NewConfigMap, NewClaim, NewStatefulSet, NewHeadless, Made;
    NoDraftIsInstance(p);
    MadeCell(sc.secret, NewSecret(p.id, p.mgr));
    MadeCell(sc.config, NewConfigMap(p, 1));
    MadeCell(sc.claim, NewClaim(p.mgr));
    MadeCell(sc.set_, NewStatefulSet(p.id, p.mgr, 1));
    MadeCell(sc.headless, NewHeadless(p.id, p.mgr));
  }

  /** With none of the five there, a sized cluster's first pass succeeds and makes each from its own draft. */
  lemma FirstPass(s: Store, id: Id, uuid: string)
    requires var sc := SceneOf(s, id); Open(sc) && sc.config.live.None? && sc.headless.live.None?
    ensures var (t, q) := Run(s, Begin(id, uuid), []); var mgr := ObjAt(s, ClusterKey(id));
            && q.pc == Done(false) && CellAt(t, ClusterKey(id)) == CellAt(s, ClusterKey(id))
            && Holds(CellAt(t, SecretKey(id)), NewSecret(id, mgr))
            && Holds(CellAt(t, MemberConfigKey(id, 1)), NewConfigMap(Pass(id, uuid, mgr, MakeSecret), 1))
            && Holds(CellAt(t, MemberClaimKey(id, 1)), NewClaim(mgr))
            && Holds(CellAt(t, StatefulSetKey(id)), NewStatefulSet(id, mgr, 1))
            && Holds(CellAt(t, HeadlessKey(id)), NewHeadless(id, mgr))
  {
    hide Play, Run, Built, Holds, NewSecret, NewConfigMap, NewClaim, NewStatefulSet, NewHeadless;
    var sc := SceneOf(s, id);
    PlayIsRun(s, Begin(id, uuid));
    OneRound(sc, id, uuid);
    assert !Fails(sc) by { OpenHasMembers(sc); }
    BuiltHolds(sc, Pass(id, uuid, sc.cluster.live.value, MakeSecret));
  }

  lemma OpenHasMembers(sc: Scene)
    requires Open(sc)
    ensures ClusterOf(sc.cluster.live.value).members != []
  {
  }

  // ----- Any number of passes -----

  /** The store after quiet passes, one for each random group name, in order. */
  ghost function Passes(s: Store, id: Id, uuids: seq<string>): Store {
    if uuids == [] then s else Run(Passes(s, id, uuids[..|uuids| - 1]), Begin(id, uuids[|uuids| - 1]), []).0
  }

  ghost predicate Complete(s: Store, id: Id) {
    All(SceneOf(s, id))
  }

  ghost predicate CompleteAfter(s: Store, id: Id, uuids: seq<string>) {
    Complete(Passes(s, id, uuids), id)
  }

  /** After at least one pass: all five exactly if they were there or the way was open, and else the way is shut. */
  lemma {:induction false} AfterPasses(s: Store, id: Id, uuids: seq<string>)
    requires uuids != []
    ensures var sc, r := SceneOf(s, id), SceneOf(Passes(s, id, uuids), id);
            && (All(r) <==> All(sc) || Open(sc))
            && (!All(r) ==> !Open(r))
    decreases |uuids|
  {
    hide Run, SceneOf, All, Open, Fails, Play;
    var before, last := uuids[..|uuids| - 1], uuids[|uuids| - 1];
    var t := Passes(s, id, before);
    PlayIsRun(t, Begin(id, last));
    OneRound(SceneOf(t, id), id, last);
    if before != [] {
      AfterPasses(s, id, before);
    }
  }

  /**
   Completion by retry. Passes over a cluster reach all five children exactly if, at the start, all five exist, or
   the custom resource is there with a sized first member and Secret, claim 1 and StatefulSet are all absent.
   Then the first pass is enough; and every pass fails or succeeds as `Fails` says of the cells it finds.
   */
  lemma CompletesIff(s: Store, id: Id)
    ensures (exists uuids :: CompleteAfter(s, id, uuids)) <==> Complete(s, id) || Open(SceneOf(s, id))
    ensures Complete(s, id) || Open(SceneOf(s, id)) ==> forall uuids | uuids != [] :: CompleteAfter(s, id, uuids)
    ensures forall uuid :: Run(s, Begin(id, uuid), []).1.pc == Done(Fails(SceneOf(s, id)))
  {
    hide Run, SceneOf, All, Open, Fails, Play;
    forall uuids | uuids != []
      ensures CompleteAfter(s, id, uuids) <==> Complete(s, id) || Open(SceneOf(s, id))
    {
      AfterPasses(s, id, uuids);
    }
    assert CompleteAfter(s, id, []) <==> Complete(s, id);
    assert CompleteAfter(s, id, [""]) <==> Complete(s, id) || Open(SceneOf(s, id));
    forall uuid ensures Run(s, Begin(id, uuid), []).1.pc == Done(Fails(SceneOf(s, id))) {
      PlayIsRun(s, Begin(id, uuid));
      OneRound(SceneOf(s, id), id, uuid);
    }
  }

  // ----- In a run -----

  lemma {:induction false} ExecuteAppend(sys: System, first: seq<Action>, more: seq<Action>)
    ensures Execute(sys, first + more) == Execute(Execute(sys, first), more)
    decreases |more|
  {
    hide Act;
    if more == [] {
      assert first + more == first;
    } else {
      assert (first + more)[..|first + more| - 1] == first + more[..|more| - 1];
      ExecuteAppend(sys, first, more[..|more| - 1]);
    }
  }

  lemma {:induction false} ExecuteValid(actions: seq<Action>)
    ensures Valid(Execute(EMPTY, actions).store)
    decreases |actions|
  {
    hide Ask, Resume, Apply, Valid;
    if actions == [] {
      assert Valid(EMPTY.store) by { EmptyValid(); }
    } else {
      var before, a := Execute(EMPTY, actions[..|actions| - 1]), actions[|actions| - 1];
      ExecuteValid(actions[..|actions| - 1]);
      match a
      case Call(x) => if Running(before, x) { ApplyEvolves(before.store, Ask(before.passes[x].pass)); }
      case ByUser(req) => if UserMay(req) { ApplyEvolves(before.store, req); }
      case _ =>
    }
  }

  lemma EmptyValid()
    ensures Valid(EMPTY.store)
  {
  }

  function Calls(id: Id, n: nat): seq<Action> {
    if n == 0 then [] else [Call(id)] + Calls(id, n - 1)
  }

  /** Undisturbed calls, enough of them, come to the whole pass. */
  lemma {:induction false} CallsAreRun(sys: System, id: Id, n: nat)
    requires id in sys.passes && Stage(sys.passes[id].pass.pc) <= n
    ensures Execute(sys, Calls(id, n)).store == Run(sys.store, sys.passes[id].pass, []).0
    decreases n
  {
    hide Ask, Resume, Apply, Stage;
    if n > 0 {
      var p := sys.passes[id].pass;
      var next := Act(sys, Call(id));
      assert Execute(sys, []) == sys;
      assert [Call(id)][..0] == [];
      assert Execute(sys, [Call(id)]) == next;
      ExecuteAppend(sys, [Call(id)], Calls(id, n - 1));
      if Running(sys, id) {
        var (t, reply) := Apply(sys.store, Ask(p));
        assert ApplyAll(sys.store, []) == sys.store;
        assert Answer(sys.store, Ask(p), Next([])) == (t, reply);
        ResumeDescends(p, reply);
        CallsAreRun(next, id, n - 1);
      } else {
        assert Stage(p.pc) == 0 by { DoneStage(p.pc); }
        CallsAreRun(next, id, n - 1);
      }
    } else {
      assert sys.passes[id].pass.pc.Done? by { DoneStage(sys.passes[id].pass.pc); }
    }
  }

  lemma DoneStage(pc: Pc)
    ensures Stage(pc) == 0 <==> pc.Done?
  {
  }

  const SIZED_SPEC := ClusterSpec([Member("primary", Some(1))], 0, "", "")

  /** What a user can do to have a sized custom resource: create one, or write a size into the one that is there. */
  function Sizing(s: Store, id: Id): Request {
    Request(ClusterKey(id),
            if Alive(s, ClusterKey(id)) then
              var o := ObjAt(s, ClusterKey(id));
              Update(0, Draft(o.finalizers, o.meta, if Sized(o) then o.body else Cluster(SIZED_SPEC)))
            else
              Create(Draft([], NO_META, Cluster(SIZED_SPEC))))
  }

  lemma SizingSizes(s: Store, id: Id)
    requires Valid(s)
    ensures var t := Apply(s, Sizing(s, id)).0;
            && Alive(t, ClusterKey(id)) && Sized(ObjAt(t, ClusterKey(id)))
            && (forall k | k != ClusterKey(id) :: CellAt(t, k) == CellAt(s, k))
  {
    ApplyElsewhere(s, Sizing(s, id));
    SizingServed(CellAt(s, ClusterKey(id)), Sizing(s, id).verb);
  }

  lemma SizingServed(c: Cell, verb: Verb)
    requires ValidCell(c)
    requires if c.live.Some? then
               verb.Update? && verb.version == 0 && verb.draft.finalizers == c.live.value.finalizers
             else
               verb.Create?
    requires var b := verb.draft.body; b.Cluster? && b.cluster.members != [] && b.cluster.members[0].size.Some?
    ensures var d := Serve(c, verb).0; d.live.Some? && Sized(d.live.value)
  {
  }

  /** The steps that complete a cluster whose creation has not begun. */
  function Completion(s: Store, id: Id): seq<Action> {
    [ByUser(Sizing(s, id)), Start(id, "")] + Calls(id, 10)
  }

  lemma CompletionSteps(sys: System, id: Id)
    requires !Running(sys, id)
    ensures var t := Apply(sys.store, Sizing(sys.store, id)).0;
            Execute(sys, Completion(sys.store, id)).store == Run(t, Begin(id, ""), []).0
  {
    hide Run, Apply;
    var req := Sizing(sys.store, id);
    var first := [ByUser(req), Start(id, "")];
    assert first[..1] == [ByUser(req)] && [ByUser(req)][..0] == [] && Execute(sys, []) == sys;
    var sized := Execute(sys, first);
    assert Execute(sys, [ByUser(req)]) == Act(sys, ByUser(req));
    assert sized == Act(Act(sys, ByUser(req)), Start(id, ""));
    ExecuteAppend(sys, first, Calls(id, 10));
    CallsAreRun(sized, id, 10);
  }

  /**
   In a run, with no pass of the name under way: the five children can still come to exist, by whatever users and
   passes do next, exactly if they exist already or the Secret does not.
   */
  lemma CompletableIff(actions: seq<Action>, id: Id)
    requires !Running(Execute(EMPTY, actions), id)
    ensures var s := Execute(EMPTY, actions).store;
            (exists more :: Complete(Execute(EMPTY, actions + more).store, id)) <==> Complete(s, id) || !Alive(s, SecretKey(id))
  {
    hide Run, Execute, All;
    var sys := Execute(EMPTY, actions);
    if Complete(sys.store, id) {
      assert actions + [] == actions;
      assert Complete(Execute(EMPTY, actions + []).store, id);
    } else if !Alive(sys.store, SecretKey(id)) {
      CompletionCompletes(actions, id);
    } else {
      forall more: seq<Action> ensures !Complete(Execute(EMPTY, actions + more).store, id) {
        NeverCompleted(actions, more, id);
        SameIncomplete(sys.store, Execute(EMPTY, actions + more).store, id);
      }
    }
  }

  lemma SameIncomplete(s: Store, t: Store, id: Id)
    requires SameChildren(s, t, id) && Alive(s, SecretKey(id)) && !Complete(s, id)
    ensures !Complete(t, id)
  {
  }

  lemma CompletionCompletes(actions: seq<Action>, id: Id)
    requires var sys := Execute(EMPTY, actions); !Running(sys, id) && !Alive(sys.store, SecretKey(id))
    ensures exists more :: Complete(Execute(EMPTY, actions + more).store, id)
  {
    hide Run, Execute, Valid, Apply, Play, Completion;
    var sys := Execute(EMPTY, actions);
    var more := Completion(sys.store, id);
    ExecuteKeepsInvariant(actions);
    ExecuteValid(actions);
    assert InOrder(SceneOf(sys.store, id));
    SizingSizes(sys.store, id);
    var t := Apply(sys.store, Sizing(sys.store, id)).0;
    assert Open(SceneOf(t, id));
    PlayIsRun(t, Begin(id, ""));
    OneRound(SceneOf(t, id), id, "");
    CompletionSteps(sys, id);
    ExecuteAppend(EMPTY, actions, more);
    assert Complete(Execute(EMPTY, actions + more).store, id);
  }
}

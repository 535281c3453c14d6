/**
 Retrying a pass while nobody else interferes and no call fails.

 The custom resource is live, not marked for deletion and valid; the children may be anything. Such passes
 bring Deployment, Service and ConfigMap to their desired contents exactly when the Deployment is there
 and staying, or neither the ConfigMap nor the claim is there; otherwise no number of passes helps.
 */
module Convergence {
  import opened Api
  import opened Kube
  import opened InstancePass
  import opened AnyEnvironment
  import opened Fleet

  /** One call that neither fails nor is interfered with. */
  ghost function One(sc: Scene, p: Pass): (Scene, Pass)
    requires !p.pc.Done?
  {
    var place := PlaceOf(p.pc);
    var (c, reply) := Serve(CellIn(sc, place), Ask(p).verb);
    (Shift(sc, place, c), Resume(p, reply))
  }

  /** The scene and the pass at the end of a quiet pass, or where teardown begins. */
  ghost function Play(sc: Scene, p: Pass): (Scene, Pass)
    decreases Stage(p.pc), ClaimsLeft(p)
  {
    if p.pc.Done? || InTeardown(p.pc) then
      (sc, p)
    else
      ResumeDescends(p, Serve(CellIn(sc, PlaceOf(p.pc)), Ask(p).verb).1);
      var (sc', p') := One(sc, p);
      Play(sc', p')
  }

  lemma {:induction false} PlayIsRun(s: Store, p: Pass)
    requires Play(SceneOf(s, p.id), p).1.pc.Done?
    ensures var (t, q) := Run(s, p, []);
            SceneOf(t, p.id) == Play(SceneOf(s, p.id), p).0 && q == Play(SceneOf(s, p.id), p).1
    decreases Stage(p.pc), ClaimsLeft(p)
  {
    hide Ask, Resume, Serve, SceneOf, Stage, ClaimsLeft, Shift, CellIn;
    if !p.pc.Done? {
      var (t, reply) := Apply(s, Ask(p));
      assert ApplyAll(s, []) == s;
      assert Answer(s, Ask(p), Next([])) == (t, reply);
      SceneAfter(s, p);
      ResumeDescends(p, reply);
      ResumeId(p, reply);
      PlayIsRun(t, Resume(p, reply));
    }
  }

  // ----- One child -----

  /** What updateResource makes of a child's cell: created, replaced or left alone. */
  function Swapped(c: Cell, want: Draft): Cell {
    Serve(c, if c.live.Some? then Update(c.live.value.version, want) else Create(want)).0
  }

  ghost predicate Equal(c: Cell, want: Draft) {
    c.live.Some? && DraftOf(c.live.value) == want
  }

  ghost predicate Differs(c: Cell, want: Draft) {
    c.live.Some? && DraftOf(c.live.value) != want
  }

  ghost predicate Staying(c: Cell) {
    c.live.Some? && !c.live.value.deleting
  }

  ghost function CellFor(sc: Scene, child: Child): Cell {
    CellIn(sc, ChildPlace(child))
  }

  lemma SwappedCell(c: Cell, want: Draft)
    requires ValidCell(c) && want.finalizers == [] && !want.body.Instance?
    ensures var d := Swapped(c, want);
            && ValidCell(d)
            && (c.live.None? || Staying(c) ==> Equal(d, want) && Staying(d))
            && (c.live.Some? && c.live.value.deleting ==> d.live.None?)
            && (Equal(c, want) ==> d == c)
  {
  }

  lemma SwapMissing(sc: Scene, p: Pass)
    requires p.pc.Look? && CellFor(sc, p.pc.child).live.None?
    ensures var child := p.pc.child; var want := Desired(p.id, p.cr, child);
            Play(sc, p) ==
            Play(Shift(sc, ChildPlace(child), Swapped(CellFor(sc, child), want)), EnterNext(p.id, p.cr, child))
  {
    hide Play, Desired;
    var child := p.pc.child;
    var c, want := CellFor(sc, child), Desired(p.id, p.cr, child);
    var p1 := p.(pc := MakeMissing(child));
    var p2 := p.(pc := Rewrite(child, 0, want));
    var sc1 := Shift(sc, ChildPlace(child), Swapped(c, want));
    PlayOne(sc, p, sc, p1);
    PlayOne(sc, p1, sc1, p2);
    PlayOne(sc1, p2, sc1, EnterNext(p.id, p.cr, child));
  }

  lemma PlayOne(sc: Scene, p: Pass, sc1: Scene, p1: Pass)
    requires !p.pc.Done? && !InTeardown(p.pc) && One(sc, p) == (sc1, p1)
    ensures Play(sc, p) == Play(sc1, p1)
  {
    hide Ask, Resume, Serve, Shift, CellIn;
  }

  lemma SwapPresent(sc: Scene, p: Pass)
    requires p.pc.Look? && CellFor(sc, p.pc.child).live.Some? && ValidCell(CellFor(sc, p.pc.child))
    ensures var child := p.pc.child; var o, want := CellFor(sc, child).live.value, Desired(p.id, p.cr, child);
            Play(sc, p) ==
            Play(Shift(sc, ChildPlace(child), Swapped(CellFor(sc, child), want)),
                 p.(pc := Rewrite(child, o.version, Overlay(o, want))))
  {
    hide Play;
    var child := p.pc.child;
    var c := CellFor(sc, child);
    var o, want := c.live.value, Desired(p.id, p.cr, child);
    var p1 := p.(pc := Overwrite(child, o));
    var sc1 := Shift(sc, ChildPlace(child), Swapped(c, want));
    PlayOne(sc, p, sc, p1);
    assert !AddsFinalizer(want.finalizers, o.finalizers);
    PlayOne(sc, p1, sc1, p.(pc := Rewrite(child, o.version, Overlay(o, want))));
  }

  /** The second write: nothing to do for a child that was as desired, a conflict otherwise. */
  lemma SecondWrite(c: Cell, want: Draft)
    requires c.live.Some? && ValidCell(c) && want.finalizers == [] && !want.body.Instance?
    ensures var o, d := c.live.value, Swapped(c, want);
            var (e, reply) := Serve(d, Update(o.version, Overlay(o, want)));
            e == d && (reply.Ok? <==> Equal(c, want))
  {
  }

  lemma DesiredDraft(id: Id, cr: Obj, child: Child)
    ensures Desired(id, cr, child).finalizers == [] && !Desired(id, cr, child).body.Instance?
  {
  }

  /** updateResource, undisturbed: a child that differs is put right and the pass fails, any other lets it go on. */
  lemma SwapPlay(sc: Scene, p: Pass)
    requires p.pc.Look? && ValidCell(CellFor(sc, p.pc.child))
    ensures var child := p.pc.child; var want := Desired(p.id, p.cr, child);
            var sc1 := Shift(sc, ChildPlace(child), Swapped(CellFor(sc, child), want));
            Play(sc, p) ==
            if Differs(CellFor(sc, child), want) then (sc1, Stop(p, true)) else Play(sc1, EnterNext(p.id, p.cr, child))
  {
    hide Play, Serve, Swapped;
    var child := p.pc.child;
    var c, want := CellFor(sc, child), Desired(p.id, p.cr, child);
    if c.live.None? {
      SwapMissing(sc, p);
    } else {
      SwapPresent(sc, p);
      DesiredDraft(p.id, p.cr, child);
      SecondWrite(c, want);
      var sc1 := Shift(sc, ChildPlace(child), Swapped(c, want));
      var p2 := p.(pc := Rewrite(child, c.live.value.version, Overlay(c.live.value, want)));
      var p3 := if Differs(c, want) then Stop(p, true) else EnterNext(p.id, p.cr, child);
      PlayOne(sc1, p2, sc1, p3);
      if Differs(c, want) {
        PlayDone(sc1, p3);
      }
    }
  }

  lemma PlayDone(sc: Scene, p: Pass)
    requires p.pc.Done?
    ensures Play(sc, p) == (sc, p)
  {
  }

  // ----- The three children in turn -----

  /** The scene after watchResource has tended the children, and whether it failed on the way. */
  ghost function Tend(sc: Scene, id: Id, cr: Obj): (Scene, bool) {
    var sc1 := sc.(workload := Swapped(sc.workload, Desired(id, cr, Workload)));
    var sc2 := sc1.(front := Swapped(sc.front, Desired(id, cr, Front)));
    if Differs(sc.workload, Desired(id, cr, Workload)) then
      (sc1, true)
    else if Differs(sc.front, Desired(id, cr, Front)) then
      (sc2, true)
    else
      (sc2.(config := Swapped(sc.config, Desired(id, cr, Config))), Differs(sc.config, Desired(id, cr, Config)))
  }

  lemma TendPlay(sc: Scene, id: Id, cr: Obj)
    requires ValidScene(sc)
    ensures var (sc', p) := Play(sc, Pass(id, cr, Look(Workload)));
            (sc', p.pc) == (Tend(sc, id, cr).0, Done(Tend(sc, id, cr).1))
  {
    hide Play, Swapped, Desired, Differs, ValidCell;
    var sc1 := sc.(workload := Swapped(sc.workload, Desired(id, cr, Workload)));
    var sc2 := sc1.(front := Swapped(sc.front, Desired(id, cr, Front)));
    var sc3 := sc2.(config := Swapped(sc.config, Desired(id, cr, Config)));
    SwapPlay(sc, Pass(id, cr, Look(Workload)));
    SwapPlay(sc1, Pass(id, cr, Look(Front)));
    SwapPlay(sc2, Pass(id, cr, Look(Config)));
    PlayDone(sc3, Pass(id, cr, Done(false)));
  }

  // ----- Up to the children -----

  /** The custom resource is there, valid and not marked for deletion. */
  ghost predicate Live(sc: Scene) {
    && ValidScene(sc)
    && Staying(sc.instance)
    && sc.instance.live.value.body.Instance?
    && ValidSpec(SpecOf(sc.instance.live.value))
  }

  ghost function Cr(sc: Scene): Obj
    requires Live(sc)
  {
    sc.instance.live.value
  }

  /** The same custom resource in the eyes of the constructors of children. */
  ghost predicate SameInstance(sc: Scene, sc': Scene) {
    && Live(sc) && Live(sc')
    && Cr(sc').uid == Cr(sc).uid
    && SpecOf(Cr(sc')) == SpecOf(Cr(sc))
  }

  lemma SameDesired(sc: Scene, sc': Scene, id: Id)
    requires SameInstance(sc, sc')
    ensures forall child :: Desired(id, Cr(sc'), child) == Desired(id, Cr(sc), child)
  {
  }

  /** The cell after its object is written back with other finalizers or annotations. */
  function Written(c: Cell, n: Obj): Cell {
    Serve(c, Update(n.version, DraftOf(n))).0
  }

  lemma WriteBack(c: Cell, n: Obj)
    requires ValidCell(c) && Staying(c)
    requires var o := c.live.value; n.uid == o.uid && n.version == o.version && n.body == o.body
    ensures var (d, reply) := Serve(c, Update(n.version, DraftOf(n)));
            && d == Written(c, n) && ValidCell(d) && Staying(d) && reply == Ok(d.live.value)
            && DraftOf(d.live.value) == DraftOf(n) && d.live.value.uid == n.uid
            && (DraftOf(c.live.value) == DraftOf(n) ==> d == c)
  {
  }

  ghost function WithFinalizer(sc: Scene): (sc': Scene)
    requires Live(sc)
    ensures Live(sc')
  {
    var cr := Cr(sc);
    var n := cr.(finalizers := cr.finalizers + [FINALIZER]);
    WriteBack(sc.instance, n);
    if Guards(cr) then sc else sc.(instance := Written(sc.instance, n))
  }

  ghost function WithAnnotation(sc: Scene): Scene
    requires Live(sc)
  {
    var cr := Cr(sc);
    sc.(instance := Written(sc.instance,
                            cr.(meta := cr.meta.(annotations := cr.meta.annotations["spec" := Json(SpecOf(cr))]))))
  }

  lemma FetchPlay(sc: Scene, id: Id)
    requires Live(sc)
    ensures var sc1 := WithFinalizer(sc);
            && SameInstance(sc, sc1) && Guards(Cr(sc1))
            && Play(sc, Begin(id)) == Play(sc1, Pass(id, Cr(sc1), FindDeployment))
  {
    hide Play;
    var cr := Cr(sc);
    if Guards(cr) {
      PlayOne(sc, Begin(id), sc, Pass(id, cr, FindDeployment));
    } else {
      var n := cr.(finalizers := cr.finalizers + [FINALIZER]);
      assert n.finalizers[|cr.finalizers|] == FINALIZER;
      WriteBack(sc.instance, n);
      PlayOne(sc, Begin(id), sc, Pass(id, cr, InstallFinalizer));
      InstallPlay(sc, id);
    }
  }

  lemma InstallPlay(sc: Scene, id: Id)
    requires Live(sc) && !Guards(Cr(sc))
    ensures Live(WithFinalizer(sc))
    ensures var sc1 := WithFinalizer(sc);
            Play(sc, Pass(id, Cr(sc), InstallFinalizer)) == Play(sc1, Pass(id, Cr(sc1), FindDeployment))
  {
    hide Play, Serve;
    var n := Cr(sc).(finalizers := Cr(sc).finalizers + [FINALIZER]);
    WriteBack(sc.instance, n);
    PlayOne(sc, Pass(id, Cr(sc), InstallFinalizer), WithFinalizer(sc), Pass(id, Cr(WithFinalizer(sc)), FindDeployment));
  }

  lemma AnnotatePlay(sc: Scene, id: Id)
    requires Live(sc)
    ensures var sc1 := WithAnnotation(sc);
            && SameInstance(sc, sc1) && Cr(sc1).finalizers == Cr(sc).finalizers && Annotated(sc1)
            && Play(sc, Pass(id, Cr(sc), Annotate)) == Play(sc1, Pass(id, Cr(sc1), Look(Workload)))
            && (Annotated(sc) ==> sc1 == sc)
  {
    hide Play, Serve;
    var cr := Cr(sc);
    var n := cr.(meta := cr.meta.(annotations := cr.meta.annotations["spec" := Json(SpecOf(cr))]));
    WriteBack(sc.instance, n);
    PlayOne(sc, Pass(id, cr, Annotate), WithAnnotation(sc), Pass(id, Cr(WithAnnotation(sc)), Look(Workload)));
  }

  ghost predicate Annotated(sc: Scene) {
    && Live(sc)
    && "spec" in Cr(sc).meta.annotations
    && Cr(sc).meta.annotations["spec"] == Json(SpecOf(Cr(sc)))
  }

  // ----- Creating the children -----

  function Made(c: Cell, d: Draft): Cell {
    Serve(c, Create(d)).0
  }

  lemma MadeCell(c: Cell, d: Draft)
    requires c.live.None? && !d.body.Instance?
    ensures var (e, reply) := Serve(c, Create(d));
            && e == Made(c, d) && ValidCell(e) && Staying(e) && Equal(e, d) && reply == Ok(e.live.value)
  {
  }

  ghost function WithStatus(sc: Scene, service: Obj): Scene
    requires Live(sc)
  {
    sc.(instance := Serve(sc.instance, UpdateStatus(Cr(sc).version, StatusFor(Cr(sc), service))).0)
  }

  lemma StatusPlay(sc: Scene, id: Id, service: Obj)
    requires Live(sc)
    ensures var sc1 := WithStatus(sc, service);
            && SameInstance(sc, sc1) && Cr(sc1).finalizers == Cr(sc).finalizers
            && Play(sc, Pass(id, Cr(sc), ReportStatus(service))) == Play(sc1, Pass(id, Cr(sc1), Annotate))
  {
    hide Play;
    PlayOne(sc, Pass(id, Cr(sc), ReportStatus(service)), WithStatus(sc, service), Pass(id, Cr(WithStatus(sc, service)), Annotate));
  }

  /** ConfigMap, claim and Deployment made, in that order. */
  ghost function ThreeMade(sc: Scene, id: Id): Scene
    requires Live(sc)
  {
    sc.(config := Made(sc.config, NewConfigMap()),
        claim := Made(sc.claim, NewClaim(Cr(sc))),
        workload := Made(sc.workload, NewDeployment(id, Cr(sc))))
  }

  lemma MakeBlocked(sc: Scene, id: Id)
    requires Live(sc) && sc.workload.live.None? && (sc.config.live.Some? || sc.claim.live.Some?)
    ensures var (sc', p) := Play(sc, Pass(id, Cr(sc), FindDeployment));
            && p.pc == Done(true)
            && sc' == if sc.config.live.Some? then sc else sc.(config := Made(sc.config, NewConfigMap()))
  {
    hide Play;
    var p := Pass(id, Cr(sc), FindDeployment);
    PlayOne(sc, p, sc, p.(pc := MakeConfig));
    if sc.config.live.Some? {
      PlayOne(sc, p.(pc := MakeConfig), sc, Stop(p, true));
      PlayDone(sc, Stop(p, true));
    } else {
      var sc1 := sc.(config := Made(sc.config, NewConfigMap()));
      PlayOne(sc, p.(pc := MakeConfig), sc1, p.(pc := MakeClaim));
      PlayOne(sc1, p.(pc := MakeClaim), sc1, Stop(p, true));
      PlayDone(sc1, Stop(p, true));
    }
  }

  lemma MakeThree(sc: Scene, id: Id)
    requires Live(sc) && sc.workload.live.None? && sc.config.live.None? && sc.claim.live.None?
    ensures Play(sc, Pass(id, Cr(sc), FindDeployment)) == Play(ThreeMade(sc, id), Pass(id, Cr(sc), MakeService))
  {
    hide Play;
    var p := Pass(id, Cr(sc), FindDeployment);
    var sc1 := sc.(config := Made(sc.config, NewConfigMap()));
    var sc2 := sc1.(claim := Made(sc.claim, NewClaim(Cr(sc))));
    PlayOne(sc, p, sc, p.(pc := MakeConfig));
    PlayOne(sc, p.(pc := MakeConfig), sc1, p.(pc := MakeClaim));
    PlayOne(sc1, p.(pc := MakeClaim), sc2, p.(pc := MakeDeployment));
    PlayOne(sc2, p.(pc := MakeDeployment), ThreeMade(sc, id), p.(pc := MakeService));
  }

  lemma MakeFront(sc: Scene, id: Id)
    requires Live(sc)
    ensures var p, sc1 := Pass(id, Cr(sc), MakeService), sc.(front := Made(sc.front, NewService(id, Cr(sc))));
            if sc.front.live.Some? then
              Play(sc, p) == (sc, Stop(p, true))
            else
              && sc1.front.live.Some?
              && Play(sc, p) == Play(sc1, p.(pc := ReportStatus(sc1.front.live.value)))
  {
    hide Play;
    var p, sc1 := Pass(id, Cr(sc), MakeService), sc.(front := Made(sc.front, NewService(id, Cr(sc))));
    if sc.front.live.Some? {
      PlayOne(sc, p, sc, Stop(p, true));
      PlayDone(sc, Stop(p, true));
    } else {
      PlayOne(sc, p, sc1, p.(pc := ReportStatus(sc1.front.live.value)));
    }
  }

  // ----- A round -----

  ghost function Round(sc: Scene, id: Id): Scene {
    Play(sc, Begin(id)).0
  }

  /** What the round ends with. */
  ghost predicate Ends(sc: Scene, id: Id, failed: bool) {
    Play(sc, Begin(id)).1.pc == Done(failed)
  }

  ghost function Off(sc: Scene, id: Id, child: Child): nat
    requires Live(sc)
  {
    if Differs(CellFor(sc, child), Desired(id, Cr(sc), child)) then 1 else 0
  }

  /** The Deployment is there and staying, or neither the ConfigMap nor the claim is there. */
  ghost predicate Good(sc: Scene) {
    Staying(sc.workload) || (sc.config.live.None? && sc.claim.live.None?)
  }

  /** The number of passes that will still fail. */
  ghost function Rank(sc: Scene, id: Id): nat
    requires Live(sc)
  {
    if Staying(sc.workload) then
      Off(sc, id, Workload) + Off(sc, id, Front) + Off(sc, id, Config)
    else
      (if sc.workload.live.Some? then 1 else 0) + (if sc.front.live.Some? then 1 + Off(sc, id, Front) else 0)
  }

  /** Guarded, annotated, and all three children as desired. */
  ghost predicate Settled(sc: Scene, id: Id) {
    && Live(sc) && Guards(Cr(sc)) && Annotated(sc)
    && forall child: Child :: Equal(CellFor(sc, child), Desired(id, Cr(sc), child))
  }

  lemma FoundPlay(sc: Scene, id: Id)
    requires Live(sc) && sc.workload.live.Some?
    ensures Play(sc, Pass(id, Cr(sc), FindDeployment)) == Play(sc, Pass(id, Cr(sc), Annotate))
  {
    hide Play;
    PlayOne(sc, Pass(id, Cr(sc), FindDeployment), sc, Pass(id, Cr(sc), Annotate));
  }

  lemma TendingRound(sc: Scene, id: Id)
    requires Live(sc) && sc.workload.live.Some?
    ensures var sc1 := WithAnnotation(WithFinalizer(sc));
            && SameInstance(sc, sc1) && Guards(Cr(sc1)) && Annotated(sc1)
            && Round(sc, id) == Tend(sc1, id, Cr(sc1)).0
            && Ends(sc, id, Tend(sc1, id, Cr(sc1)).1)
  {
    hide Play, Annotated, Tend, Written;
    var sc0 := WithFinalizer(sc);
    FetchPlay(sc, id);
    FoundPlay(sc0, id);
    var sc1 := WithAnnotation(sc0);
    AnnotatePlay(sc0, id);
    TendPlay(sc1, id, Cr(sc1));
  }

  /** How far one round's tending gets: the first child that differs is put right, and nothing after it is touched. */
  lemma TendRank(sc: Scene, id: Id)
    requires Live(sc) && sc.workload.live.Some?
    ensures var (r, failed) := Tend(sc, id, Cr(sc));
            && r.instance == sc.instance && r.claim == sc.claim && Live(r)
            && (failed <==> exists child :: Off(sc, id, child) == 1)
            && (Staying(sc.workload) ==>
                  Staying(r.workload) && Rank(r, id) == if failed then Rank(sc, id) - 1 else 0)
            && (!Staying(sc.workload) ==> r == sc.(workload := Cell(sc.workload.clock + 1, None)) && failed)
            && (!failed ==> forall child: Child :: Equal(CellFor(r, child), Desired(id, Cr(sc), child)))
  {
    hide Desired, Swapped, Serve;
    var cr := Cr(sc);
    SwappedChild(sc, id, Workload);
    SwappedChild(sc, id, Front);
    SwappedChild(sc, id, Config);
    assert Off(sc, id, Workload) == 1 || Off(sc, id, Front) == 1 || Off(sc, id, Config) == 1
      <==> exists child :: Off(sc, id, child) == 1;
    if !Staying(sc.workload) {
      DesiredDraft(id, cr, Workload);
      TerminatingSwapped(sc.workload, Desired(id, cr, Workload));
    }
  }

  lemma SwappedChild(sc: Scene, id: Id, child: Child)
    requires Live(sc)
    ensures var c, want := CellFor(sc, child), Desired(id, Cr(sc), child); var d := Swapped(c, want);
            && ValidCell(d)
            && !Differs(d, want)
            && (c.live.None? || Staying(c) ==> Equal(d, want) && Staying(d))
            && (Equal(c, want) ==> d == c && Staying(c))
  {
    DesiredDraft(id, Cr(sc), child);
    SwappedCell(CellFor(sc, child), Desired(id, Cr(sc), child));
  }

  lemma TerminatingSwapped(c: Cell, want: Draft)
    requires ValidCell(c) && c.live.Some? && !Staying(c) && want.finalizers == []
    ensures Swapped(c, want) == Cell(c.clock + 1, None) && Differs(c, want)
  {
  }

  /** With all four children absent one round makes them and finds nothing to correct. */
  lemma MakingRound(sc: Scene, id: Id)
    requires Live(sc) && sc.workload.live.None? && sc.config.live.None? && sc.claim.live.None?
    ensures var r := Round(sc, id);
            && SameInstance(sc, r)
            && Staying(r.workload) && Off(r, id, Workload) == 0 && Off(r, id, Config) == 0
            && r.claim == Made(sc.claim, NewClaim(Cr(sc))) && r.claim.live.Some?
            && (sc.front.live.None? ==> Cr(r).finalizers == Cr(WithFinalizer(sc)).finalizers)
            && Ends(sc, id, sc.front.live.Some?)
            && (if sc.front.live.Some? then r.front == sc.front else Settled(r, id))
  {
    hide Play, Made, Written, Desired, WithFinalizer;
    var sc0 := WithFinalizer(sc);
    var cr := Cr(sc0);
    FetchPlay(sc, id);
    assert sc0 == sc.(instance := sc0.instance) by { WithFinalizerElsewhere(sc); }
    SameDesired(sc, sc0, id);
    MakeThree(sc0, id);
    MadeCell(sc.config, NewConfigMap());
    MadeCell(sc.claim, NewClaim(cr));
    MadeCell(sc.workload, NewDeployment(id, cr));
    DesiredChildren(id, cr);
    var sc3 := ThreeMade(sc0, id);
    MakeFront(sc3, id);
    SameDesired(sc0, sc3, id);
    if sc.front.live.None? {
      MadeCell(sc.front, NewService(id, cr));
      SettlePlay(sc3.(front := Made(sc.front, NewService(id, cr))), id);
      SwappedChild(Round(sc, id), id, Workload);
    }
  }

  lemma WithFinalizerElsewhere(sc: Scene)
    requires Live(sc)
    ensures WithFinalizer(sc) == sc.(instance := WithFinalizer(sc).instance)
  {
  }

  lemma DesiredChildren(id: Id, cr: Obj)
    ensures Desired(id, cr, Workload) == NewDeployment(id, cr)
    ensures Desired(id, cr, Front) == NewService(id, cr)
    ensures Desired(id, cr, Config) == NewConfigMap()
    ensures !NewDeployment(id, cr).body.Instance? && !NewService(id, cr).body.Instance?
    ensures !NewConfigMap().body.Instance? && !NewClaim(cr).body.Instance?
  {
  }

  /** From the status report on, with every child as desired. */
  lemma SettlePlay(sc: Scene, id: Id)
    requires Live(sc) && Guards(Cr(sc)) && sc.front.live.Some?
    requires forall child: Child :: Equal(CellFor(sc, child), Desired(id, Cr(sc), child))
    ensures var (r, p) := Play(sc, Pass(id, Cr(sc), ReportStatus(sc.front.live.value)));
            && SameInstance(sc, r) && Settled(r, id) && p.pc == Done(false)
            && r.claim == sc.claim && Cr(r).finalizers == Cr(sc).finalizers
  {
    hide Play, Desired, WithStatus, WithAnnotation, Tend;
    var service := sc.front.live.value;
    StatusPlay(sc, id, service);
    var sc1 := WithStatus(sc, service);
    AnnotatePlay(sc1, id);
    var sc2 := WithAnnotation(sc1);
    assert sc2 == sc.(instance := sc2.instance) by { StatusElsewhere(sc, service); }
    SameDesired(sc, sc2, id);
    TendPlay(sc2, id, Cr(sc2));
    TendEqual(sc2, id);
  }

  lemma StatusElsewhere(sc: Scene, service: Obj)
    requires Live(sc) && Live(WithStatus(sc, service))
    ensures var sc2 := WithAnnotation(WithStatus(sc, service)); sc2 == sc.(instance := sc2.instance)
  {
  }

  lemma TendEqual(sc: Scene, id: Id)
    requires Live(sc) && forall child: Child :: Equal(CellFor(sc, child), Desired(id, Cr(sc), child))
    ensures Tend(sc, id, Cr(sc)) == (sc, false)
  {
    hide Desired, Swapped;
    SwappedChild(sc, id, Workload);
    SwappedChild(sc, id, Front);
    SwappedChild(sc, id, Config);
  }

  // ----- Convergence -----

  /** On the convergent side every failing round lowers the rank by one, and a round at rank zero settles. */
  lemma GoodRound(sc: Scene, id: Id)
    requires Live(sc) && Good(sc)
    ensures var r := Round(sc, id);
            && SameInstance(sc, r) && Good(r)
            && Ends(sc, id, Rank(sc, id) > 0)
            && (if Rank(sc, id) == 0 then Settled(r, id) else Rank(r, id) == Rank(sc, id) - 1)
  {
    if sc.workload.live.Some? {
      GoodTending(sc, id);
    } else {
      hide Round, Settled, Desired, Play, Ends;
      MakingRound(sc, id);
      SameDesired(sc, Round(sc, id), id);
    }
  }

  lemma GoodTending(sc: Scene, id: Id)
    requires Live(sc) && Good(sc) && sc.workload.live.Some?
    ensures var r := Round(sc, id);
            && SameInstance(sc, r) && Good(r)
            && Ends(sc, id, Rank(sc, id) > 0)
            && (if Rank(sc, id) == 0 then Settled(r, id) else Rank(r, id) == Rank(sc, id) - 1)
  {
    hide Play, Tend, Desired, WithFinalizer, WithAnnotation, Ends;
    TendingRound(sc, id);
    var sc1 := WithAnnotation(WithFinalizer(sc));
    assert sc1 == sc.(instance := sc1.instance) by { TendingElsewhere(sc); }
    SameDesired(sc, sc1, id);
    TendRank(sc1, id);
    assert Rank(sc1, id) == Rank(sc, id);
    assert (exists child :: Off(sc1, id, child) == 1) <==>
      Off(sc1, id, Workload) == 1 || Off(sc1, id, Front) == 1 || Off(sc1, id, Config) == 1 by { SomeOff(sc1, id); }
  }

  lemma SomeOff(sc: Scene, id: Id)
    requires Live(sc)
    ensures (exists child :: Off(sc, id, child) == 1) <==>
            Off(sc, id, Workload) == 1 || Off(sc, id, Front) == 1 || Off(sc, id, Config) == 1
  {
  }

  lemma TendingElsewhere(sc: Scene)
    requires Live(sc)
    ensures var sc1 := WithAnnotation(WithFinalizer(sc)); sc1 == sc.(instance := sc1.instance)
  {
    WithFinalizerElsewhere(sc);
  }

  /** The other side is closed under rounds, and a round there never leaves a Deployment behind that stays. */
  lemma BadRound(sc: Scene, id: Id)
    requires Live(sc) && !Good(sc)
    ensures SameInstance(sc, Round(sc, id)) && !Good(Round(sc, id)) && Ends(sc, id, true)
  {
    hide Play, Tend, WithFinalizer, Made, Desired;
    if sc.workload.live.Some? {
      TendingRound(sc, id);
      var sc1 := WithAnnotation(WithFinalizer(sc));
      assert sc1 == sc.(instance := sc1.instance) by { TendingElsewhere(sc); }
      TendRank(sc1, id);
    } else {
      FetchPlay(sc, id);
      WithFinalizerElsewhere(sc);
      MakeBlocked(WithFinalizer(sc), id);
      if sc.config.live.None? {
        MadeCell(sc.config, NewConfigMap());
      }
    }
  }

  /** A settled scene is a fixed point, and its round succeeds. */
  lemma SettledRound(sc: Scene, id: Id)
    requires Settled(sc, id)
    ensures Round(sc, id) == sc && Ends(sc, id, false)
  {
    hide Play, Desired, Tend;
    SwappedChild(sc, id, Workload);
    TendingRound(sc, id);
    AnnotatePlay(sc, id);
    TendEqual(sc, id);
  }

  /** The store after `n` passes, one after the other, with no failure and nobody else at work. */
  ghost function Passes(s: Store, id: Id, n: nat): Store {
    if n == 0 then s else Run(Passes(s, id, n - 1), Begin(id), []).0
  }

  lemma PassIsRound(s: Store, id: Id)
    requires Live(SceneOf(s, id))
    ensures SceneOf(Run(s, Begin(id), []).0, id) == Round(SceneOf(s, id), id)
    ensures forall failed :: Ends(SceneOf(s, id), id, failed) ==> Run(s, Begin(id), []).1.pc == Done(failed)
  {
    hide SceneOf, Play, Live, Good, Rank, SameInstance, Settled, Run;
    var sc := SceneOf(s, id);
    if Good(sc) {
      GoodRound(sc, id);
    } else {
      BadRound(sc, id);
    }
    PlayIsRun(s, Begin(id));
  }

  /** After `n` passes on the convergent side the rank is down by `n`, or all is settled. */
  lemma {:induction false} GoodPasses(s: Store, id: Id, n: nat)
    requires Live(SceneOf(s, id)) && Good(SceneOf(s, id))
    ensures var sc, r := SceneOf(Passes(s, id, n), id), Rank(SceneOf(s, id), id);
            if n <= r then Live(sc) && Good(sc) && Rank(sc, id) == r - n else Settled(sc, id)
  {
    hide SceneOf, Play, Live, Good, Rank, SameInstance, Settled, Run;
    if n > 0 {
      GoodPasses(s, id, n - 1);
      var t := Passes(s, id, n - 1);
      if n - 1 <= Rank(SceneOf(s, id), id) {
        PassIsRound(t, id);
        GoodRound(SceneOf(t, id), id);
        SameIsLive(SceneOf(t, id), Round(SceneOf(t, id), id));
      } else {
        SettledIsLive(SceneOf(t, id), id);
        PassIsRound(t, id);
        SettledRound(SceneOf(t, id), id);
      }
    }
  }

  lemma SameIsLive(sc: Scene, sc': Scene)
    requires SameInstance(sc, sc')
    ensures Live(sc) && Live(sc')
  {
  }

  lemma SettledIsLive(sc: Scene, id: Id)
    requires Settled(sc, id)
    ensures Live(sc) && Good(sc)
  {
    SwappedChild(sc, id, Workload);
  }

  lemma {:induction false} BadPasses(s: Store, id: Id, n: nat)
    requires Live(SceneOf(s, id)) && !Good(SceneOf(s, id))
    ensures var sc := SceneOf(Passes(s, id, n), id); Live(sc) && !Good(sc)
  {
    hide SceneOf, Play, Live, Good, SameInstance, Settled, Run;
    if n > 0 {
      BadPasses(s, id, n - 1);
      var t := Passes(s, id, n - 1);
      PassIsRound(t, id);
      BadRound(SceneOf(t, id), id);
      SameIsLive(SceneOf(t, id), Round(SceneOf(t, id), id));
    }
  }

  lemma RankBound(sc: Scene, id: Id)
    requires Live(sc)
    ensures Rank(sc, id) <= 3
  {
  }

  ghost predicate SettledAfter(s: Store, id: Id, n: nat) {
    Settled(SceneOf(Passes(s, id, n), id), id)
  }

  /**
   Convergence. Retrying settles the children exactly when, at the start, the Deployment is there and not
   marked for deletion or both the ConfigMap and the claim are absent. Then four passes are enough and what they reach is a
   fixed point; the number of failing passes is the rank, and each of them lowers it by one.
   */
  lemma Converges(s: Store, id: Id)
    requires Live(SceneOf(s, id))
    ensures (exists n: nat :: SettledAfter(s, id, n)) <==> Good(SceneOf(s, id))
    ensures Good(SceneOf(s, id)) ==> forall n: nat | n >= 4 :: SettledAfter(s, id, n)
    ensures Good(SceneOf(s, id)) ==>
              forall n: nat :: Run(Passes(s, id, n), Begin(id), []).1.pc == Done(n < Rank(SceneOf(s, id), id))
  {
    hide SceneOf, Play, Live, Good, Rank, SameInstance, Settled, Run, Ends;
    var sc := SceneOf(s, id);
    RankBound(sc, id);
    if Good(sc) {
      forall n: nat | n > Rank(sc, id) ensures SettledAfter(s, id, n) {
        GoodPasses(s, id, n);
      }
      var enough := Rank(sc, id) + 1;
      assert SettledAfter(s, id, enough);
      forall n: nat ensures Run(Passes(s, id, n), Begin(id), []).1.pc == Done(n < Rank(sc, id)) {
        GoodPasses(s, id, n);
        var t := Passes(s, id, n);
        if n <= Rank(sc, id) {
          PassIsRound(t, id);
          GoodRound(SceneOf(t, id), id);
        } else {
          SettledIsLive(SceneOf(t, id), id);
          PassIsRound(t, id);
          SettledRound(SceneOf(t, id), id);
        }
      }
    } else {
      forall n: nat ensures !SettledAfter(s, id, n) {
        BadPasses(s, id, n);
        if Settled(SceneOf(Passes(s, id, n), id), id) {
          SettledIsLive(SceneOf(Passes(s, id, n), id), id);
        }
      }
    }
  }
}

/**
 A pass whose first read of the Deployment fails: the operator takes any error there for absence.
 */
module FailedRead {
  import opened Api
  import opened Kube
  import opened Names
  import opened InstancePass
  import opened Fleet
  import opened Convergence

  const FAULT := Turn([], true)

  /** A failed read is answered by the creation, at once and without a change of the store. */
  lemma FaultCreates(s: Store, p: Pass, rest: seq<Turn>)
    requires p.pc.FindDeployment?
    ensures Run(s, p, [FAULT] + rest) == Run(s, p.(pc := MakeConfig), rest)
  {
    hide Stage, ClaimsLeft;
    var turns := [FAULT] + rest;
    assert turns[1..] == rest;
    assert Answer(s, Ask(p), FAULT) == (s, Transient);
    ResumeDescends(p, Transient);
  }

  lemma AbsentCreates(s: Store, p: Pass, rest: seq<Turn>)
    requires p.pc.FindDeployment? && !Alive(s, DeploymentKey(p.id))
    ensures Run(s, p, [QUIET] + rest) == Run(s, p.(pc := MakeConfig), rest)
  {
    hide Stage, ClaimsLeft;
    var turns := [QUIET] + rest;
    assert turns[1..] == rest;
    assert ApplyAll(s, []) == s;
    assert Apply(s, Ask(p)) == (s, NotFound);
    assert Answer(s, Ask(p), QUIET) == (s, NotFound);
    ResumeDescends(p, NotFound);
  }

  /** Without a Deployment the failure makes no difference to anything that follows, whatever happens next. */
  lemma FaultIsAbsence(s: Store, p: Pass, rest: seq<Turn>)
    requires p.pc.FindDeployment? && !Alive(s, DeploymentKey(p.id))
    ensures Run(s, p, [FAULT] + rest) == Run(s, p, [QUIET] + rest)
  {
    hide Run;
    FaultCreates(s, p, rest);
    AbsentCreates(s, p, rest);
  }

  /** With the ConfigMap there, the failure ends the pass with an error and without an effect, Deployment or not. */
  lemma FaultBlocked(s: Store, p: Pass)
    requires p.pc.FindDeployment? && Alive(s, ConfigKey(p.id))
    ensures Run(s, p, [FAULT]) == (s, p.(pc := Done(true)))
  {
    hide Stage, ClaimsLeft;
    assert [FAULT] == [FAULT] + [];
    FaultCreates(s, p, []);
    var q := p.(pc := MakeConfig);
    assert ApplyAll(s, []) == s;
    assert Apply(s, Ask(q)) == (s, AlreadyExists);
    assert Answer(s, Ask(q), QUIET) == (s, AlreadyExists);
    ResumeDescends(q, AlreadyExists);
  }

  lemma QuietStep(s: Store, p: Pass, rest: seq<Turn>)
    requires !p.pc.Done?
    ensures var (t, reply) := Apply(s, Ask(p)); Run(s, p, [QUIET] + rest) == Run(t, Resume(p, reply), rest)
  {
    hide Stage, ClaimsLeft, Ask, Resume, Apply;
    assert ([QUIET] + rest)[1..] == rest;
    assert ApplyAll(s, []) == s;
    var (t, reply) := Apply(s, Ask(p));
    assert Answer(s, Ask(p), QUIET) == (t, reply);
    ResumeDescends(p, reply);
  }

  lemma QuietEnd(s: Store, p: Pass)
    requires !p.pc.Done?
    ensures Run(s, p, []) == Run(s, p, [QUIET])
  {
    hide Stage, ClaimsLeft, Ask, Resume, Apply;
    var (t, reply) := Apply(s, Ask(p));
    assert ApplyAll(s, []) == s;
    assert Answer(s, Ask(p), QUIET) == (t, reply);
    ResumeDescends(p, reply);
  }

  /** The calls before the read: the Get of the resource, and the write of the finalizer where it is missing. */
  function Before(o: Obj): seq<Turn> {
    if "finalizer.greatsql.cn" in o.finalizers then [QUIET] else [QUIET, QUIET]
  }

  /** The store and the pass at the read. */
  ghost function AtRead(s: Store, id: Id): (Store, Pass)
    requires Live(SceneOf(s, id))
  {
    var o := ObjAt(s, InstanceKey(id));
    if Guards(o) then
      (s, Pass(id, o, FindDeployment))
    else
      var (t, reply) := Apply(s, Ask(Pass(id, o, InstallFinalizer)));
      (t, Resume(Pass(id, o, InstallFinalizer), reply))
  }

  lemma AtReadReads(s: Store, id: Id)
    requires Live(SceneOf(s, id))
    ensures var (t, p) := AtRead(s, id); p.id == id && p.pc.FindDeployment?
    ensures forall k | k != InstanceKey(id) :: CellAt(AtRead(s, id).0, k) == CellAt(s, k)
  {
    var o := ObjAt(s, InstanceKey(id));
    if !Guards(o) {
      ApplyElsewhere(s, Ask(Pass(id, o, InstallFinalizer)));
      WriteBack(CellAt(s, InstanceKey(id)), o.(finalizers := o.finalizers + [FINALIZER]));
    }
  }

  /** A live resource reaches the read of the Deployment in that many calls. */
  lemma ReachesRead(s: Store, id: Id, rest: seq<Turn>)
    requires Live(SceneOf(s, id))
    ensures var (t, p) := AtRead(s, id); Run(s, Begin(id), Before(ObjAt(s, InstanceKey(id))) + rest) == Run(t, p, rest)
  {
    hide Run;
    var o := ObjAt(s, InstanceKey(id));
    FetchLive(s, id);
    if Guards(o) {
      QuietStep(s, Begin(id), rest);
    } else {
      assert [QUIET, QUIET] + rest == [QUIET] + ([QUIET] + rest);
      QuietStep(s, Begin(id), [QUIET] + rest);
      QuietStep(s, Pass(id, o, InstallFinalizer), rest);
    }
  }

  lemma FetchLive(s: Store, id: Id)
    requires Live(SceneOf(s, id))
    ensures var o := ObjAt(s, InstanceKey(id));
            && Apply(s, Ask(Begin(id))) == (s, Ok(o))
            && Resume(Begin(id), Ok(o)) == Pass(id, o, if Guards(o) then FindDeployment else InstallFinalizer)
  {
  }

  /**
   For a live resource without a Deployment, a pass whose read of the Deployment fails and is otherwise undisturbed is
   the undisturbed pass. With none of the four children there it succeeds, makes them all, and settles.
   */
  lemma FailedReadHeals(s: Store, id: Id)
    requires Live(SceneOf(s, id)) && !Alive(s, DeploymentKey(id))
    ensures var turns := Before(ObjAt(s, InstanceKey(id))) + [FAULT];
            && Run(s, Begin(id), turns) == Run(s, Begin(id), [])
            && (!Alive(s, ConfigKey(id)) && !Alive(s, ClaimKey(id)) && !Alive(s, ServiceKey(id)) ==>
                  var (t, q) := Run(s, Begin(id), turns);
                  q.pc == Done(false) && Settled(SceneOf(t, id), id) && Alive(t, ClaimKey(id)))
  {
    hide Run, AtRead, Settled, Before;
    var before := Before(ObjAt(s, InstanceKey(id)));
    var (t, p) := AtRead(s, id);
    AtReadReads(s, id);
    ReachesRead(s, id, [FAULT]);
    assert [FAULT] == [FAULT] + [] && [QUIET] == [QUIET] + [];
    FaultIsAbsence(t, p, []);
    QuietEnd(t, p);
    ReachesRead(s, id, []);
    assert before + [] == before;
    BeforeIsQuiet(s, id);
    if !Alive(s, ConfigKey(id)) && !Alive(s, ClaimKey(id)) && !Alive(s, ServiceKey(id)) {
      SettlesFromNothing(s, id);
    }
  }

  lemma {:induction false} QuietRun(s: Store, p: Pass, turns: seq<Turn>)
    requires forall i | 0 <= i < |turns| :: turns[i] == QUIET
    ensures Run(s, p, turns) == Run(s, p, [])
    decreases |turns|
  {
    hide Ask, Resume, Apply, Run;
    if turns != [] {
      assert turns == [QUIET] + turns[1..];
      if p.pc.Done? {
        RunDone(s, p, turns);
        RunDone(s, p, []);
      } else {
        var (t, reply) := Apply(s, Ask(p));
        QuietStep(s, p, turns[1..]);
        QuietRun(t, Resume(p, reply), turns[1..]);
        QuietEnd(s, p);
        assert [QUIET] == [QUIET] + [];
        QuietStep(s, p, []);
      }
    }
  }

  lemma RunDone(s: Store, p: Pass, turns: seq<Turn>)
    requires p.pc.Done?
    ensures Run(s, p, turns) == (s, p)
  {
  }

  lemma BeforeIsQuiet(s: Store, id: Id)
    requires Live(SceneOf(s, id))
    ensures Run(s, Begin(id), Before(ObjAt(s, InstanceKey(id)))) == Run(s, Begin(id), [])
  {
    QuietRun(s, Begin(id), Before(ObjAt(s, InstanceKey(id))));
  }

  lemma SettlesFromNothing(s: Store, id: Id)
    requires Live(SceneOf(s, id))
    requires !Alive(s, DeploymentKey(id)) && !Alive(s, ConfigKey(id)) && !Alive(s, ClaimKey(id)) && !Alive(s, ServiceKey(id))
    ensures var (t, q) := Run(s, Begin(id), []);
            q.pc == Done(false) && Settled(SceneOf(t, id), id) && Alive(t, ClaimKey(id))
  {
    hide Run, Play, Settled, Live;
    MakingRound(SceneOf(s, id), id);
    PassIsRound(s, id);
  }
}

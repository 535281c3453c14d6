/**
 Whole passes as parts of the runs of the fleet: what is proved of every run holds of them, and every pass that a
 script describes does occur in a run.
 */
module Executions {
  import opened Api
  import opened Kube
  import opened Names
  import opened InstancePass
  import opened Fleet

  lemma {:induction false} ExecuteAppend(sys: System, first: seq<Action>, more: seq<Action>)
    ensures Execute(sys, first + more) == Execute(Execute(sys, first), more)
    decreases |more|
  {
    hide Act;
    if more == [] {
      assert first + more == first;
    } else {
      assert (first + more)[..|first + more| - 1] == first + more[..|more| - 1];
      ExecuteAppend(sys, first, more[..|more| - 1]);
    }
  }

  lemma ExecuteOne(sys: System, a: Action, more: seq<Action>)
    ensures Execute(sys, [a] + more) == Execute(Act(sys, a), more)
  {
    hide Act;
    ExecuteAppend(sys, [a], more);
    assert [a][..0] == [];
    assert Execute(sys, []) == sys;
    assert Execute(sys, [a]) == Act(sys, a);
  }

  function ByUsers(reqs: seq<Request>): seq<Action>
    decreases |reqs|
  {
    if reqs == [] then [] else [ByUser(reqs[0])] + ByUsers(reqs[1..])
  }

  /** What the others do before a call, then the call, or its failure. */
  function Step(id: Id, turn: Turn): seq<Action> {
    ByUsers(turn.others) + [if turn.fails then Fault(id) else Call(id)]
  }

  /** The others are users who do what users may do. */
  ghost predicate Permitted(s: Store, reqs: seq<Request>)
    decreases |reqs|
  {
    reqs == [] || (UserMay(s, reqs[0]) && Permitted(Apply(s, reqs[0]).0, reqs[1..]))
  }

  lemma {:induction false} UsersAct(sys: System, reqs: seq<Request>)
    requires Permitted(sys.store, reqs)
    ensures Execute(sys, ByUsers(reqs)) == sys.(store := ApplyAll(sys.store, reqs))
    decreases |reqs|
  {
    hide Apply, UserMay;
    if reqs != [] {
      ExecuteOne(sys, ByUser(reqs[0]), ByUsers(reqs[1..]));
      UsersAct(Act(sys, ByUser(reqs[0])), reqs[1..]);
    }
  }

  /** Every doing of others in the script is one that users may do. */
  ghost predicate Lawful(s: Store, p: Pass, turns: seq<Turn>)
    decreases Stage(p.pc), ClaimsLeft(p)
  {
    p.pc.Done? ||
    (Permitted(s, Next(turns).others) &&
     var (t, reply) := Answer(s, Ask(p), Next(turns));
     ResumeDescends(p, reply);
     Lawful(t, Resume(p, reply), Rest(turns)))
  }

  function Steps(s: Store, p: Pass, turns: seq<Turn>): seq<Action>
    decreases Stage(p.pc), ClaimsLeft(p)
  {
    if p.pc.Done? then
      []
    else
      var (t, reply) := Answer(s, Ask(p), Next(turns));
      ResumeDescends(p, reply);
      Step(p.id, Next(turns)) + Steps(t, Resume(p, reply), Rest(turns))
  }

  lemma OneStep(sys: System, id: Id, turn: Turn)
    requires Running(sys, id) && sys.passes[id].id == id && Permitted(sys.store, turn.others)
    ensures var p := sys.passes[id]; var (t, reply) := Answer(sys.store, Ask(p), turn);
            Execute(sys, Step(id, turn)) == System(t, sys.passes[id := Resume(p, reply)])
  {
    hide Ask, Resume, Apply, UserMay, Permitted;
    var others := ByUsers(turn.others);
    var last := if turn.fails then Fault(id) else Call(id);
    UsersAct(sys, turn.others);
    ExecuteAppend(sys, others, [last]);
    var mid := Execute(sys, others);
    ExecuteOne(mid, last, []);
    assert [last] + [] == [last];
    assert Execute(Act(mid, last), []) == Act(mid, last);
  }

  /** A scripted pass is a run: the same store and the same pass at the end, with all other passes where they were. */
  lemma {:induction false} RunIsExecution(sys: System, id: Id, turns: seq<Turn>)
    requires id in sys.passes && sys.passes[id].id == id && Lawful(sys.store, sys.passes[id], turns)
    ensures var p := sys.passes[id]; var (t, q) := Run(sys.store, p, turns);
            Execute(sys, Steps(sys.store, p, turns)) == System(t, sys.passes[id := q])
    decreases Stage(sys.passes[id].pc), ClaimsLeft(sys.passes[id])
  {
    hide Ask, Resume, Answer, Step, Stage, ClaimsLeft, Permitted;
    var p := sys.passes[id];
    if p.pc.Done? {
      assert sys.passes[id := p] == sys.passes;
    } else {
      var (t, reply) := Answer(sys.store, Ask(p), Next(turns));
      var next := System(t, sys.passes[id := Resume(p, reply)]);
      ResumeDescends(p, reply);
      ResumeId(p, reply);
      OneStep(sys, id, Next(turns));
      ExecuteAppend(sys, Step(id, Next(turns)), Steps(t, Resume(p, reply), Rest(turns)));
      RunIsExecution(next, id, Rest(turns));
      var q := Run(t, Resume(p, reply), Rest(turns)).1;
      assert next.passes[id := q] == sys.passes[id := q];
    }
  }

  /** What the runs allow users: anything with custom resources, except to take the finalizer off by an Update. */
  lemma UsersMay(s: Store, id: Id, verb: Verb)
    ensures var k := InstanceKey(id);
            UserMay(s, Request(k, verb)) <==>
            (verb.Update? && Alive(s, k) && "finalizer.greatsql.cn" in ObjAt(s, k).finalizers ==>
               "finalizer.greatsql.cn" in verb.draft.finalizers)
  {
  }

  /** A crash loses the pass and leaves the store; a pass of the name can then begin anew, and no earlier. */
  lemma CrashAndRestart(sys: System, id: Id)
    requires DnsName(id.name)
    ensures var down := Act(sys, Crash(id)); var up := Act(down, Start(id));
            && down.store == sys.store && id !in down.passes
            && (forall other | other != id :: other in down.passes <==> other in sys.passes)
            && up.store == sys.store && Running(up, id) && up.passes[id] == Begin(id)
    ensures Running(sys, id) ==> Act(sys, Start(id)) == sys
  {
  }
}

/**
 Teardown of a SingleInstance: cut short anywhere and repeated it comes to the same, and what a whole
 life of an instance leaves behind.
 */
module Teardown {
  import opened Api
  import opened Kube
  import opened Names
  import opened InstancePass
  import opened AnyEnvironment
  import opened Fleet

  // ----- The targets, in the order in which they are deleted -----

  function Claims(cr: Obj): nat {
    if GetSize(SpecOf(cr)) > 0 then GetSize(SpecOf(cr)) else 0
  }

  function Targets(cr: Obj): nat { Claims(cr) + 3 }

  function Target(id: Id, cr: Obj, j: nat): Key {
    if j < Claims(cr) then OldClaimKey(id, j)
    else if j == Claims(cr) then DeploymentKey(id)
    else if j == Claims(cr) + 1 then ServiceKey(id)
    else OldConfigKey(id)
  }

  /** The pass that has `j` deletions behind it. */
  function At(id: Id, cr: Obj, j: nat): Pass {
    Pass(id, cr,
         if j < Claims(cr) then DeleteClaim(j)
         else if j == Claims(cr) then DeleteDeployment
         else if j == Claims(cr) + 1 then DeleteService
         else if j == Claims(cr) + 2 then DeleteConfig
         else DropFinalizer)
  }

  /** The store with the first `j` targets deleted. */
  ghost function Deleted(s: Store, id: Id, cr: Obj, j: nat): Store {
    if j == 0 then s else Apply(Deleted(s, id, cr, j - 1), Request(Target(id, cr, j - 1), Delete)).0
  }

  function Gone(c: Cell): Cell { Serve(c, Delete).0 }

  lemma GoneTwice(c: Cell)
    ensures Gone(Gone(c)) == Gone(c)
  {
  }

  ghost predicate Hit(id: Id, cr: Obj, j: nat, k: Key) {
    exists i: nat :: i < j && Target(id, cr, i) == k
  }

  /** Key by key: a target hit once is as good as hit any number of times. */
  lemma {:induction false} DeletedAt(s: Store, id: Id, cr: Obj, j: nat, k: Key)
    ensures CellAt(Deleted(s, id, cr, j), k) == if Hit(id, cr, j, k) then Gone(CellAt(s, k)) else CellAt(s, k)
    ensures k in Deleted(s, id, cr, j) <==> k in s
  {
    hide Serve, Target;
    if j > 0 {
      DeletedAt(s, id, cr, j - 1, k);
      var t := Deleted(s, id, cr, j - 1);
      var key := Target(id, cr, j - 1);
      ApplyAt(t, Request(key, Delete), k);
      GoneTwice(CellAt(s, k));
      GoneVacant();
      if key != k && Hit(id, cr, j, k) {
        assert Hit(id, cr, j - 1, k);
      }
    }
  }

  lemma GoneVacant()
    ensures Gone(VACANT) == VACANT
  {
  }

  lemma DeletedAgain(s: Store, id: Id, cr: Obj, j: nat, m: nat)
    requires j <= m
    ensures Deleted(Deleted(s, id, cr, j), id, cr, m) == Deleted(s, id, cr, m)
  {
    hide Deleted, Gone;
    var t := Deleted(s, id, cr, j);
    var u, v := Deleted(t, id, cr, m), Deleted(s, id, cr, m);
    forall k ensures CellAt(u, k) == CellAt(v, k) && (k in u <==> k in v) {
      DeletedAt(s, id, cr, j, k);
      DeletedAt(t, id, cr, m, k);
      DeletedAt(s, id, cr, m, k);
      GoneTwice(CellAt(s, k));
    }
    SameCells(u, v);
  }

  lemma SameCells(u: Store, v: Store)
    requires forall k :: CellAt(u, k) == CellAt(v, k) && (k in u <==> k in v)
    ensures u == v
  {
    forall k ensures k in u.Keys <==> k in v.Keys {
      assert CellAt(u, k) == CellAt(v, k);
    }
    forall k | k in u ensures u[k] == v[k] {
      assert CellAt(u, k) == CellAt(v, k);
    }
  }

  // ----- Quiet calls -----

  /** The store and the pass after one quiet call. */
  ghost function Tick(s: Store, p: Pass): (Store, Pass) {
    if p.pc.Done? then (s, p) else var (t, reply) := Apply(s, Ask(p)); (t, Resume(p, reply))
  }

  /** A pass that crashes after `n` quiet calls. */
  ghost function Cut(s: Store, p: Pass, n: nat): (Store, Pass) {
    if n == 0 then (s, p) else var (t, q) := Cut(s, p, n - 1); Tick(t, q)
  }

  lemma RunTick(s: Store, p: Pass)
    ensures Run(s, p, []) == Run(Tick(s, p).0, Tick(s, p).1, [])
  {
    hide Ask, Apply, Resume;
    if !p.pc.Done? {
      assert ApplyAll(s, []) == s;
      assert Answer(s, Ask(p), Next([])) == Apply(s, Ask(p));
    }
  }

  lemma DeleteTick(s: Store, id: Id, cr: Obj, j: nat)
    requires j < Targets(cr)
    ensures Tick(s, At(id, cr, j)) == (Apply(s, Request(Target(id, cr, j), Delete)).0, At(id, cr, j + 1))
  {
    hide Apply;
    DeleteReply(s, Target(id, cr, j));
  }

  lemma DeleteReply(s: Store, k: Key)
    ensures var reply := Apply(s, Request(k, Delete)).1; reply.Ok? || reply.NotFound?
  {
  }

  lemma {:induction false} RunDeletes(s: Store, id: Id, cr: Obj, j: nat)
    requires j <= Targets(cr)
    ensures Run(s, At(id, cr, 0), []) == Run(Deleted(s, id, cr, j), At(id, cr, j), [])
  {
    hide Run, Apply, Tick, At;
    if j > 0 {
      RunDeletes(s, id, cr, j - 1);
      RunTick(Deleted(s, id, cr, j - 1), At(id, cr, j - 1));
      DeleteTick(Deleted(s, id, cr, j - 1), id, cr, j - 1);
    }
  }

  // ----- After the finalizer is gone -----

  /** The operator is done with this name: the custom resource is gone, or it terminates without the operator's finalizer. */
  ghost predicate Released(s: Store, id: Id) {
    Alive(s, InstanceKey(id)) ==> ObjAt(s, InstanceKey(id)).deleting && !Guards(ObjAt(s, InstanceKey(id)))
  }

  ghost predicate Idle(s: Store, p: Pass) {
    && Released(s, p.id)
    && ( || p.pc.FetchInstance?
         || p.pc.Done?
         || ( && (p.pc.ConfirmInstance? || p.pc.InstallFinalizer?)
              && !Guards(p.cr) && p.cr.version != 0
              && (Alive(s, InstanceKey(p.id)) ==> ObjAt(s, InstanceKey(p.id)) == p.cr) ) )
  }

  /** Such a pass writes nothing: it writes back what it read, or its new finalizer is refused. */
  lemma IdleTick(s: Store, p: Pass)
    requires Valid(s) && Idle(s, p)
    ensures Tick(s, p).0 == s && Idle(s, Tick(s, p).1)
  {
    if p.pc.InstallFinalizer? && Alive(s, InstanceKey(p.id)) {
      assert Ask(p).verb.draft.finalizers[|p.cr.finalizers|] == FINALIZER;
      assert AddsFinalizer(Ask(p).verb.draft.finalizers, p.cr.finalizers);
    }
  }

  lemma {:induction false} IdleRun(s: Store, p: Pass)
    requires Valid(s) && Idle(s, p)
    ensures Run(s, p, []).0 == s
    decreases Stage(p.pc), ClaimsLeft(p)
  {
    hide Ask, Apply, Resume, Idle, Stage, ClaimsLeft;
    IdleTick(s, p);
    RunTick(s, p);
    if !p.pc.Done? {
      ResumeDescends(p, Apply(s, Ask(p)).1);
      IdleRun(s, Tick(s, p).1);
    }
  }

  /** The write that takes the finalizer off releases the name. */
  lemma DropTick(s: Store, p: Pass)
    requires Valid(s) && p.pc.DropFinalizer? && Guards(p.cr) && p.cr.deleting
    requires Alive(s, InstanceKey(p.id)) && ObjAt(s, InstanceKey(p.id)) == p.cr
    ensures var (t, q) := Tick(s, p);
            && Idle(t, q) && q.id == p.id
            && (Alive(t, InstanceKey(p.id)) <==> Without(p.cr.finalizers, FINALIZER) != [])
            && (forall k | k != InstanceKey(p.id) :: CellAt(t, k) == CellAt(s, k))
  {
    ApplyAt(s, Ask(p), InstanceKey(p.id));
    ApplyElsewhere(s, Ask(p));
    assert !AddsFinalizer(Without(p.cr.finalizers, FINALIZER), p.cr.finalizers);
    assert DraftOf(p.cr) != DraftOf(Edited(p));
  }

  // ----- A terminating instance -----

  /** The custom resource is marked for deletion and still carries the operator's finalizer. */
  ghost predicate Condemned(s: Store, id: Id) {
    Guarded(s, id) && ObjAt(s, InstanceKey(id)).deleting
  }

  lemma NoTargetIsInstance(id: Id, cr: Obj, j: nat)
    ensures !Hit(id, cr, j, InstanceKey(id))
  {
  }

  lemma DeletedCondemned(s: Store, id: Id, cr: Obj, j: nat)
    requires Condemned(s, id)
    ensures var t := Deleted(s, id, cr, j); Condemned(t, id) && ObjAt(t, InstanceKey(id)) == ObjAt(s, InstanceKey(id))
  {
    hide Hit, Deleted;
    NoTargetIsInstance(id, cr, j);
    DeletedAt(s, id, cr, j, InstanceKey(id));
  }

  lemma {:induction false} DeletedValid(s: Store, id: Id, cr: Obj, j: nat)
    requires Valid(s)
    ensures Valid(Deleted(s, id, cr, j))
  {
    hide Apply, Valid, Target, Evolves;
    if j > 0 {
      DeletedValid(s, id, cr, j - 1);
      ApplyEvolves(Deleted(s, id, cr, j - 1), Request(Target(id, cr, j - 1), Delete));
    }
  }

  lemma CondemnedFetch(s: Store, id: Id)
    requires Condemned(s, id)
    ensures Tick(s, Begin(id)) == (s, At(id, ObjAt(s, InstanceKey(id)), 0))
  {
  }

  /** All targets deleted, then the finalizer taken off. */
  ghost function TornDown(s: Store, id: Id): (Store, Pass)
    requires Condemned(s, id)
  {
    var cr := ObjAt(s, InstanceKey(id));
    Tick(Deleted(s, id, cr, Targets(cr)), At(id, cr, Targets(cr)))
  }

  lemma TornDownIdle(s: Store, id: Id)
    requires Valid(s) && Condemned(s, id)
    ensures Idle(TornDown(s, id).0, TornDown(s, id).1) && Valid(TornDown(s, id).0) && TornDown(s, id).1.id == id
  {
    hide Ask, Deleted, Idle, Valid, Evolves;
    var cr := ObjAt(s, InstanceKey(id));
    DeletedCondemned(s, id, cr, Targets(cr));
    DeletedValid(s, id, cr, Targets(cr));
    DropTick(Deleted(s, id, cr, Targets(cr)), At(id, cr, Targets(cr)));
    ApplyEvolves(Deleted(s, id, cr, Targets(cr)), Ask(At(id, cr, Targets(cr))));
  }

  lemma RunCondemned(s: Store, id: Id)
    requires Valid(s) && Condemned(s, id)
    ensures Run(s, Begin(id), []).0 == TornDown(s, id).0
  {
    hide Run, Tick, At, Deleted, Idle, Valid;
    var cr := ObjAt(s, InstanceKey(id));
    RunTick(s, Begin(id));
    CondemnedFetch(s, id);
    RunDeletes(s, id, cr, Targets(cr));
    RunTick(Deleted(s, id, cr, Targets(cr)), At(id, cr, Targets(cr)));
    TornDownIdle(s, id);
    IdleRun(TornDown(s, id).0, TornDown(s, id).1);
  }

  /** Where a pass over a condemned instance is when it is cut short. */
  lemma {:induction false} CutCondemned(s: Store, id: Id, n: nat)
    requires Valid(s) && Condemned(s, id)
    ensures var (t, p) := Cut(s, Begin(id), n); var cr := ObjAt(s, InstanceKey(id));
            || (n == 0 && (t, p) == (s, Begin(id)))
            || (1 <= n <= Targets(cr) + 1 && (t, p) == (Deleted(s, id, cr, n - 1), At(id, cr, n - 1)))
            || (n > Targets(cr) + 1 && t == TornDown(s, id).0 && Idle(t, p))
  {
    hide Tick, At, Apply, Idle, Valid;
    var cr := ObjAt(s, InstanceKey(id));
    TornDownIdle(s, id);
    if n == 1 {
      CondemnedFetch(s, id);
    } else if n > 1 {
      CutCondemned(s, id, n - 1);
      if n <= Targets(cr) + 1 {
        DeleteTick(Deleted(s, id, cr, n - 2), id, cr, n - 2);
      } else if n > Targets(cr) + 2 {
        IdleTick(TornDown(s, id).0, Cut(s, Begin(id), n - 1).1);
      }
    }
  }

  lemma {:induction false} CutIdle(s: Store, p: Pass, n: nat)
    requires Valid(s) && Idle(s, p)
    ensures Cut(s, p, n).0 == s && Idle(s, Cut(s, p, n).1)
  {
    hide Tick, Idle, Valid;
    if n > 0 {
      CutIdle(s, p, n - 1);
      IdleTick(s, Cut(s, p, n - 1).1);
    }
  }

  // ----- Crash and repeat -----

  /** The custom resource is on its way out, or out. */
  ghost predicate Ending(s: Store, id: Id) {
    Alive(s, InstanceKey(id)) ==> ObjAt(s, InstanceKey(id)).deleting
  }

  lemma EndingCases(s: Store, id: Id)
    requires Ending(s, id)
    ensures Condemned(s, id) || Idle(s, Begin(id))
  {
  }

  lemma CrashedDeleting(s: Store, id: Id, j: nat)
    requires Valid(s) && Condemned(s, id) && j <= Targets(ObjAt(s, InstanceKey(id)))
    ensures var t := Deleted(s, id, ObjAt(s, InstanceKey(id)), j);
            && Valid(t) && Ending(t, id)
            && Run(t, Begin(id), []).0 == Run(s, Begin(id), []).0
            && (forall k | Alive(t, k) :: Alive(s, k))
  {
    hide Run, At, Deleted, Idle, Valid, Hit;
    var cr := ObjAt(s, InstanceKey(id));
    var t := Deleted(s, id, cr, j);
    DeletedCondemned(s, id, cr, j);
    DeletedValid(s, id, cr, j);
    RunCondemned(s, id);
    RunCondemned(t, id);
    DeletedAgain(s, id, cr, j, Targets(cr));
    forall k | Alive(t, k) ensures Alive(s, k) { DeletedAlive(s, id, cr, j, k); }
  }

  lemma CrashedAfter(s: Store, id: Id)
    requires Valid(s) && Condemned(s, id)
    ensures var t := TornDown(s, id).0;
            && Valid(t) && Ending(t, id)
            && Run(t, Begin(id), []).0 == Run(s, Begin(id), []).0
            && (forall k | Alive(t, k) :: Alive(s, k))
  {
    hide Run, At, Deleted, Idle, Valid, Hit, Tick;
    var t := TornDown(s, id).0;
    RunCondemned(s, id);
    TornDownIdle(s, id);
    IdleEnds(t, id);
    IdleRun(t, Begin(id));
    forall k | Alive(t, k) ensures Alive(s, k) { TornDownAlive(s, id, k); }
  }

  /** One crash, at any call: the store is still valid and ending, nothing new is alive, and a whole pass ends as before. */
  lemma CrashedPass(s: Store, id: Id, n: nat)
    requires Valid(s) && Ending(s, id)
    ensures var t := Cut(s, Begin(id), n).0;
            && Valid(t) && Ending(t, id)
            && Run(t, Begin(id), []).0 == Run(s, Begin(id), []).0
            && (forall k | Alive(t, k) :: Alive(s, k))
  {
    hide Run, At, Deleted, Idle, Valid, TornDown, Ending;
    EndingCases(s, id);
    if !Condemned(s, id) {
      CutIdle(s, Begin(id), n);
    } else if n > 0 {
      CutCondemned(s, id, n);
      if n <= Targets(ObjAt(s, InstanceKey(id))) + 1 {
        CrashedDeleting(s, id, n - 1);
      } else {
        CrashedAfter(s, id);
      }
    }
  }

  lemma DeletedAlive(s: Store, id: Id, cr: Obj, j: nat, k: Key)
    requires Alive(Deleted(s, id, cr, j), k)
    ensures Alive(s, k)
  {
    hide Deleted, Hit;
    DeletedAt(s, id, cr, j, k);
  }

  lemma TornDownAlive(s: Store, id: Id, k: Key)
    requires Valid(s) && Condemned(s, id) && Alive(TornDown(s, id).0, k)
    ensures Alive(s, k)
  {
    hide Deleted, Tick, Valid;
    var cr := ObjAt(s, InstanceKey(id));
    DeletedCondemned(s, id, cr, Targets(cr));
    DeletedValid(s, id, cr, Targets(cr));
    DropTick(Deleted(s, id, cr, Targets(cr)), At(id, cr, Targets(cr)));
    if k != InstanceKey(id) {
      DeletedAlive(s, id, cr, Targets(cr), k);
    }
  }

  lemma IdleEnds(s: Store, id: Id)
    requires exists p: Pass :: p.id == id && Idle(s, p)
    ensures Ending(s, id) && Idle(s, Begin(id))
  {
  }

  ghost function CutAll(s: Store, id: Id, cuts: seq<nat>): Store {
    if cuts == [] then s else Cut(CutAll(s, id, cuts[..|cuts| - 1]), Begin(id), cuts[|cuts| - 1]).0
  }

  /**
   Teardown is idempotent under crashes: any number of passes over an ending instance, each cut short after any
   number of calls, followed by one whole pass, leave the same store as that one pass alone; and
   nothing comes alive on the way, so the set of remaining targets only shrinks.
   */
  lemma {:induction false} TeardownIdempotent(s: Store, id: Id, cuts: seq<nat>)
    requires Valid(s) && Ending(s, id)
    ensures var t := CutAll(s, id, cuts);
            && Valid(t) && Ending(t, id)
            && Run(t, Begin(id), []).0 == Run(s, Begin(id), []).0
            && (forall k | Alive(t, k) :: Alive(s, k))
    decreases |cuts|
  {
    hide Cut, Run, Valid, Ending;
    if cuts != [] {
      TeardownIdempotent(s, id, cuts[..|cuts| - 1]);
      CrashedPass(CutAll(s, id, cuts[..|cuts| - 1]), id, cuts[|cuts| - 1]);
    }
  }
}

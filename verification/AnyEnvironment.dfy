/**
 What one pass keeps whatever everyone else does to the store between its calls.

 The only thing relied on is the server: versions are never reused, and a terminating
 object takes no new finalizer.
 */
module AnyEnvironment {
  import opened Api
  import opened Kube
  import opened Names
  import opened InstancePass

  /** `o` was read from this cell: as long as the version is still there, so is the very object. */
  ghost predicate Known(c: Cell, o: Obj) {
    && 1 <= o.version <= c.clock
    && (c.live.Some? && c.live.value.version == o.version ==> c.live.value == o)
  }

  /** What a pass holds in memory is what the store holds under the same version. */
  ghost predicate Coherent(s: Store, p: Pass) {
    && (!p.pc.FetchInstance? && !p.pc.Done? ==> Known(CellAt(s, InstanceKey(p.id)), p.cr))
    && (p.pc.Overwrite? ==> Known(CellAt(s, ChildKey(p.id, p.pc.child)), p.pc.seen))
    && (p.pc.Rewrite? && p.pc.version != 0 ==> SwapCoherent(CellAt(s, ChildKey(p.id, p.pc.child)), p))
    && (p.pc.StripFinalizer? || p.pc.InstallFinalizer? || p.pc.ConfirmInstance? ==> !Guards(p.cr))
  }

  /** Once the first write went through, the version read first is gone, or it shows the desired child. */
  ghost predicate SwapCoherent(c: Cell, p: Pass)
    requires p.pc.Rewrite?
  {
    && p.pc.version <= c.clock
    && (c.live.Some? && c.live.value.version == p.pc.version ==>
          DraftOf(c.live.value) == p.pc.stale == Desired(p.id, p.cr, p.pc.child))
  }

  lemma CoherentEvolves(s: Store, t: Store, p: Pass)
    requires Valid(s) && Evolves(s, t) && Coherent(s, p)
    ensures Coherent(t, p)
  {
    var k := InstanceKey(p.id);
    assert CellEvolves(CellAt(s, k), CellAt(t, k));
    if p.pc.Overwrite? || p.pc.Rewrite? {
      var k' := ChildKey(p.id, p.pc.child);
      assert CellEvolves(CellAt(s, k'), CellAt(t, k'));
    }
  }

  /** Reading or writing through the main resource leaves the writer knowing what is stored. */
  lemma ServeKnown(c: Cell, verb: Verb)
    requires ValidCell(c) && (verb.Get? || verb.Update? || verb.UpdateStatus?)
    requires Serve(c, verb).1.Ok?
    ensures Known(Serve(c, verb).0, Serve(c, verb).1.obj)
    ensures verb.Update? ==> Serve(c, verb).1.obj.finalizers == verb.draft.finalizers
  {
  }

  /** A pass that is told what its own key now holds goes on knowing it. */
  lemma ToldCoherent(t: Store, p: Pass, reply: Reply)
    requires !p.pc.Done? && Ask(p).key == InstanceKey(p.id)
    requires reply.Ok? ==> Known(CellAt(t, InstanceKey(p.id)), reply.obj)
    requires reply.Ok? && Ask(p).verb.Update? ==> reply.obj.finalizers == Ask(p).verb.draft.finalizers
    requires p.pc.ConfirmInstance? ==> !Guards(p.cr)
    ensures Coherent(t, Resume(p, reply))
  {
  }

  /** The calls on the custom resource itself. */
  lemma OwnKeyCoherent(s: Store, p: Pass)
    requires Valid(s) && Coherent(s, p) && !p.pc.Done? && Ask(p).key == InstanceKey(p.id)
    ensures var (t, reply) := Apply(s, Ask(p)); Coherent(t, Resume(p, reply))
  {
    var (t, reply) := Apply(s, Ask(p));
    ApplyAt(s, Ask(p), InstanceKey(p.id));
    if reply.Ok? {
      ServeKnown(CellAt(s, InstanceKey(p.id)), Ask(p).verb);
    }
    ToldCoherent(t, p, reply);
  }

  lemma OverwriteCoherent(s: Store, p: Pass)
    requires Valid(s) && Coherent(s, p) && p.pc.Overwrite?
    ensures var (t, reply) := Apply(s, Ask(p)); Coherent(t, Resume(p, reply))
  {
    var k := ChildKey(p.id, p.pc.child);
    var (t, reply) := Apply(s, Ask(p));
    ApplyAt(s, Ask(p), k);
    ApplyAt(s, Ask(p), InstanceKey(p.id));
    if reply.Ok? {
      assert ObjAt(s, k) == p.pc.seen;
    }
  }

  lemma LookCoherent(s: Store, p: Pass)
    requires Valid(s) && Coherent(s, p) && p.pc.Look?
    ensures var (t, reply) := Apply(s, Ask(p)); Coherent(t, Resume(p, reply))
  {
    var req := Ask(p);
    ApplyAt(s, req, InstanceKey(p.id));
    if Apply(s, req).1.Ok? {
      ServeKnown(CellAt(s, req.key), req.verb);
    }
  }

  /** The calls on other keys that leave nothing new in memory. */
  lemma OtherKeyCoherent(s: Store, p: Pass)
    requires Valid(s) && Coherent(s, p) && !p.pc.Done? && Ask(p).key != InstanceKey(p.id)
    requires !p.pc.Overwrite? && !p.pc.Look?
    ensures var (t, reply) := Apply(s, Ask(p)); Coherent(t, Resume(p, reply))
  {
    var (t, reply) := Apply(s, Ask(p));
    ApplyAt(s, Ask(p), InstanceKey(p.id));
    assert CellAt(t, InstanceKey(p.id)) == CellAt(s, InstanceKey(p.id));
  }

  lemma StepCoherent(s: Store, p: Pass)
    requires Valid(s) && Coherent(s, p) && !p.pc.Done?
    ensures var (t, reply) := Apply(s, Ask(p)); Coherent(t, Resume(p, reply))
  {
    if p.pc.Overwrite? {
      OverwriteCoherent(s, p);
    } else if p.pc.Look? {
      LookCoherent(s, p);
    } else if Ask(p).key == InstanceKey(p.id) {
      OwnKeyCoherent(s, p);
    } else {
      OtherKeyCoherent(s, p);
    }
  }

  lemma TransientCoherent(s: Store, p: Pass)
    requires Coherent(s, p) && !p.pc.Done?
    ensures Coherent(s, Resume(p, Transient))
  {
  }

  lemma FollowsCoherent(d: Event, e: Event)
    requires Answered(d) && Valid(d.before) && Coherent(d.before, d.pass) && Follows(d, e)
    ensures Coherent(e.before, e.pass) && e.pass.id == d.pass.id
  {
    hide Ask, Apply, Coherent, Valid;
    StepCoherent(d.before, d.pass);
    TransientCoherent(d.before, d.pass);
    ApplyEvolves(d.before, Ask(d.pass));
    CoherentEvolves(d.after, e.before, e.pass);
  }

  lemma {:induction false} TraceCoherent(id: Id, trace: seq<Event>, i: nat)
    requires Legal(id, trace) && i < |trace|
    ensures Coherent(trace[i].before, trace[i].pass) && trace[i].pass.id == id
  {
    if i > 0 {
      TraceCoherent(id, trace, i - 1);
      FollowsCoherent(trace[i - 1], trace[i]);
    }
  }

  // ----- No resurrection -----

  /** A pass that saw a deletion timestamp: it tears down, and then the server must turn it away. */
  ghost predicate Doomed(p: Pass) {
    && (p.pc.Done? || p.cr.deleting)
    && ( || p.pc.DeleteClaim? || p.pc.DeleteDeployment? || p.pc.DeleteService? || p.pc.DeleteConfig?
         || p.pc.DropFinalizer? || p.pc.StripFinalizer? || p.pc.ConfirmInstance? || p.pc.InstallFinalizer?
         || p.pc.Done? )
  }

  /** Writing back a terminating object keeps it terminating and never adds a finalizer. */
  lemma ServeDoomed(c: Cell, o: Obj, d: Draft)
    requires ValidCell(c) && Known(c, o) && o.deleting
    ensures var reply := Serve(c, Update(o.version, d)).1; reply.Ok? ==> reply.obj.deleting
    ensures AddsFinalizer(d.finalizers, o.finalizers) ==> !Serve(c, Update(o.version, d)).1.Ok?
  {
  }

  lemma DoomedUpdate(s: Store, p: Pass)
    requires Valid(s) && Coherent(s, p) && Doomed(p) && !p.pc.Done? && Ask(p).verb.Update?
    ensures var reply := Apply(s, Ask(p)).1;
            reply.Ok? ==> reply.obj.deleting && !p.pc.InstallFinalizer?
  {
    var d := Ask(p).verb.draft;
    ServeDoomed(CellAt(s, InstanceKey(p.id)), p.cr, d);
    if p.pc.InstallFinalizer? {
      assert d.finalizers[|p.cr.finalizers|] == FINALIZER;
      assert FINALIZER in d.finalizers;
      assert AddsFinalizer(d.finalizers, p.cr.finalizers);
    }
  }

  lemma DoomedStep(d: Event, e: Event)
    requires Answered(d) && Valid(d.before) && Coherent(d.before, d.pass) && Follows(d, e) && Doomed(d.pass)
    ensures Doomed(e.pass)
  {
    if Ask(d.pass).verb.Update? {
      DoomedUpdate(d.before, d.pass);
    }
  }

  lemma {:induction false} DoomedFromThen(id: Id, trace: seq<Event>, i: nat)
    requires Legal(id, trace) && 1 <= i < |trace|
    requires trace[0].reply.NotFound? || (trace[0].reply.Ok? && trace[0].reply.obj.deleting)
    ensures Doomed(trace[i].pass) && trace[i].pass.id == id && !trace[i].pass.pc.Done?
  {
    TraceCoherent(id, trace, i - 1);
    TraceCoherent(id, trace, i);
    assert Follows(trace[i - 1], trace[i]) && Answered(trace[i]);
    if i > 1 {
      DoomedFromThen(id, trace, i - 1);
      DoomedStep(trace[i - 1], trace[i]);
    }
  }

  /**
   No resurrection: a pass whose Get saw no custom resource makes no further call, and one that saw
   a deletion timestamp only deletes and writes the custom resource back. It never creates
   anything and never writes a child, whatever finalizers others keep on the object.
   */
  lemma NoResurrection(id: Id, trace: seq<Event>)
    requires Legal(id, trace) && trace != []
    requires trace[0].reply.NotFound? || (trace[0].reply.Ok? && trace[0].reply.obj.deleting)
    ensures trace[0].reply.NotFound? ==> |trace| == 1
    ensures forall i | 1 <= i < |trace| ::
              && !trace[i].pass.pc.Done?
              && var req := Ask(trace[i].pass);
                 req.verb.Delete? || (req.verb.Update? && req.key == InstanceKey(id))
  {
    forall i | 1 <= i < |trace|
      ensures !trace[i].pass.pc.Done?
      ensures var req := Ask(trace[i].pass);
              req.verb.Delete? || (req.verb.Update? && req.key == InstanceKey(id))
    {
      DoomedFromThen(id, trace, i);
    }
    if |trace| > 1 {
      assert Follows(trace[0], trace[1]) && Answered(trace[1]);
    }
  }

  // ----- The finalizer guard -----

  ghost predicate Guarded(s: Store, id: Id) {
    Alive(s, InstanceKey(id)) && Guards(ObjAt(s, InstanceKey(id)))
  }

  /** This call takes the finalizer off the stored custom resource. */
  ghost predicate Drops(e: Event) {
    Guarded(e.before, e.pass.id) && !Guarded(e.after, e.pass.id)
  }

  /** The objects teardown sets out to delete, by the spec it read. */
  ghost predicate IsTarget(p: Pass, k: Key) {
    || k == DeploymentKey(p.id)
    || k == ServiceKey(p.id)
    || k == OldConfigKey(p.id)
    || exists i: nat :: i < GetSize(SpecOf(p.cr)) && k == OldClaimKey(p.id, i)
  }

  /** Some call before number `i` asked to delete `k` and was told that it is deleted or absent. */
  ghost predicate Acknowledged(trace: seq<Event>, i: nat, k: Key)
    requires i <= |trace|
  {
    exists j | 0 <= j < i :: AcknowledgedAt(trace[j], k)
  }

  ghost predicate AcknowledgedAt(e: Event, k: Key) {
    && !e.pass.pc.Done?
    && Ask(e.pass) == Request(k, Delete)
    && (e.reply.Ok? || e.reply.NotFound?)
  }

  /** Which deletions lie behind a pass at its present call. */
  ghost predicate Behind(p: Pass, k: Key) {
    var claims := if p.pc.DeleteClaim? then p.pc.ordinal as int else GetSize(SpecOf(p.cr));
    || (exists i: nat :: i < claims && k == OldClaimKey(p.id, i))
    || (k == DeploymentKey(p.id) && !p.pc.DeleteClaim? && !p.pc.DeleteDeployment?)
    || (k == ServiceKey(p.id) && (p.pc.DeleteConfig? || p.pc.DropFinalizer?))
    || (k == OldConfigKey(p.id) && p.pc.DropFinalizer?)
  }

  ghost predicate InTeardown(pc: Pc) {
    pc.DeleteClaim? || pc.DeleteDeployment? || pc.DeleteService? || pc.DeleteConfig? || pc.DropFinalizer?
  }

  lemma BehindStep(p: Pass, reply: Reply, k: Key)
    requires !p.pc.Done? && InTeardown(p.pc) && InTeardown(Resume(p, reply).pc)
    requires Behind(Resume(p, reply), k) && !Behind(p, k)
    ensures Ask(p) == Request(k, Delete) && (reply.Ok? || reply.NotFound?)
  {
  }

  lemma TeardownStart(p: Pass, reply: Reply)
    requires !p.pc.Done? && !InTeardown(p.pc) && InTeardown(Resume(p, reply).pc)
    ensures forall k :: !Behind(Resume(p, reply), k)
  {
  }

  /** The path of the program alone, whatever the answers were. */
  ghost predicate Linked(trace: seq<Event>) {
    && (forall i | 0 <= i < |trace| :: !trace[i].pass.pc.Done?)
    && (forall i | 0 < i < |trace| :: trace[i].pass == Resume(trace[i - 1].pass, trace[i - 1].reply))
    && (trace != [] ==> trace[0].pass.pc.FetchInstance?)
  }

  lemma LegalIsLinked(id: Id, trace: seq<Event>)
    requires Legal(id, trace)
    ensures Linked(trace)
  {
    forall i | 0 <= i < |trace| ensures !trace[i].pass.pc.Done? {
      assert Answered(trace[i]);
    }
    forall i | 0 < i < |trace| ensures trace[i].pass == Resume(trace[i - 1].pass, trace[i - 1].reply) {
      assert Follows(trace[i - 1], trace[i]);
    }
  }

  lemma {:induction false} BehindIsAcknowledged(trace: seq<Event>, i: nat, k: Key)
    requires Linked(trace) && i < |trace| && InTeardown(trace[i].pass.pc) && Behind(trace[i].pass, k)
    ensures Acknowledged(trace, i, k)
  {
    assert i > 0;
    var p, reply := trace[i - 1].pass, trace[i - 1].reply;
    if !InTeardown(p.pc) {
      TeardownStart(p, reply);
    } else if Behind(p, k) {
      BehindIsAcknowledged(trace, i - 1, k);
    } else {
      BehindStep(p, reply, k);
      assert AcknowledgedAt(trace[i - 1], k);
    }
  }

  /** Only the write that HandleFinalizer makes last can take the finalizer away. */
  lemma OnlyDropDrops(e: Event)
    requires Answered(e) && Valid(e.before) && Coherent(e.before, e.pass) && Drops(e)
    ensures e.pass.pc.DropFinalizer?
  {
    var p, k := e.pass, InstanceKey(e.pass.id);
    ApplyAt(e.before, Ask(p), k);
    assert Ask(p).key == k;
  }

  /**
   The finalizer guard: when a call of a pass takes the finalizer off the stored custom resource,
   the deletion of every target was acknowledged earlier in that pass.
   */
  lemma FinalizerGuard(id: Id, trace: seq<Event>, i: nat)
    requires Legal(id, trace) && i < |trace| && Drops(trace[i])
    ensures trace[i].pass.pc.DropFinalizer?
    ensures forall k | IsTarget(trace[i].pass, k) :: Acknowledged(trace, i, k)
  {
    TraceCoherent(id, trace, i);
    OnlyDropDrops(trace[i]);
    LegalIsLinked(id, trace);
    forall k | IsTarget(trace[i].pass, k) ensures Acknowledged(trace, i, k) {
      BehindIsAcknowledged(trace, i, k);
    }
  }

  // ----- updateResource as a safe swap -----

  lemma SwapIsSafe(e: Event)
    requires Answered(e) && Valid(e.before) && Coherent(e.before, e.pass)
    requires e.pass.pc.Overwrite? || (e.pass.pc.Rewrite? && e.pass.pc.version != 0)
    ensures var id := e.pass.id; var k := ChildKey(id, e.pass.pc.child);
            && (forall k' | k' != k :: CellAt(e.after, k') == CellAt(e.before, k'))
            && (e.pass.pc.Overwrite? && e.after != e.before ==> Alive(e.before, k) && ObjAt(e.before, k) == e.pass.pc.seen)
            && (e.pass.pc.Rewrite? ==> e.after == e.before)
            && (e.pass.pc.Rewrite? && e.reply.Ok? ==>
                  Alive(e.after, k) && DraftOf(ObjAt(e.after, k)) == Desired(id, e.pass.cr, e.pass.pc.child))
  {
    hide Resume, Valid;
  }

  /**
   A child that was there when it was read is only ever replaced in the version that was read, the
   second write changes nothing, and when it succeeds the child is as desired.
   */
  lemma SafeSwap(id: Id, trace: seq<Event>, i: nat)
    requires Legal(id, trace) && i < |trace|
    requires trace[i].pass.pc.Overwrite? || (trace[i].pass.pc.Rewrite? && trace[i].pass.pc.version != 0)
    ensures var e := trace[i]; var k := ChildKey(id, e.pass.pc.child);
            && (forall k' | k' != k :: CellAt(e.after, k') == CellAt(e.before, k'))
            && (e.pass.pc.Overwrite? && e.after != e.before ==> Alive(e.before, k) && ObjAt(e.before, k) == e.pass.pc.seen)
            && (e.pass.pc.Rewrite? ==> e.after == e.before)
            && (e.pass.pc.Rewrite? && e.reply.Ok? ==>
                  Alive(e.after, k) && DraftOf(ObjAt(e.after, k)) == Desired(id, e.pass.cr, e.pass.pc.child))
  {
    assert Answered(trace[i]);
    hide Legal;
    TraceCoherent(id, trace, i);
    SwapIsSafe(trace[i]);
  }

  /** The second write has no version exactly if the child had to be created, and then it writes the desired child. */
  lemma RewriteStep(p: Pass, reply: Reply)
    requires !p.pc.Done? && Resume(p, reply).pc.Rewrite? && (p.pc.Overwrite? ==> p.pc.seen.version != 0)
    ensures var q := Resume(p, reply);
            && (q.pc.version == 0 <==> p.pc.MakeMissing?)
            && (p.pc.MakeMissing? ==> q.pc.stale == Desired(q.id, q.cr, q.pc.child))
  {
  }

  lemma FreshRewrite(id: Id, trace: seq<Event>, i: nat)
    requires Legal(id, trace) && i < |trace| && trace[i].pass.pc.Rewrite?
    ensures i > 0
    ensures var p := trace[i].pass;
            && (p.pc.version == 0 <==> trace[i - 1].pass.pc.MakeMissing?)
            && (p.pc.version == 0 ==> p.pc.stale == Desired(id, p.cr, p.pc.child))
  {
    assert Answered(trace[i]);
    LegalIsLinked(id, trace);
    TraceCoherent(id, trace, i);
    TraceCoherent(id, trace, i - 1);
    assert trace[i].pass == Resume(trace[i - 1].pass, trace[i - 1].reply);
    hide Legal, Linked, Resume, Desired, ChildKey;
    RewriteStep(trace[i - 1].pass, trace[i - 1].reply);
  }

  /** A write without a version goes through whatever is stored, and takes effect exactly if the draft differs. */
  lemma ServeUnconditional(c: Cell, d: Draft)
    requires ValidCell(c) && d.finalizers == [] && !d.body.Instance?
    ensures var (e, reply) := Serve(c, Update(0, d));
            && (reply.Ok? <==> c.live.Some?)
            && (e != c <==> c.live.Some? && DraftOf(c.live.value) != d)
            && (c.live.Some? && !c.live.value.deleting ==> e.live.Some? && DraftOf(e.live.value) == d)
            && (c.live.Some? && c.live.value.deleting ==> e.live.None?)
  {
  }

  lemma DesiredPlain(id: Id, cr: Obj, child: Child)
    ensures Desired(id, cr, child).finalizers == [] && !Desired(id, cr, child).body.Instance?
  {
  }

  lemma FreshRewriteEffect(e: Event)
    requires Answered(e) && Valid(e.before) && e.pass.pc.Rewrite? && e.pass.pc.version == 0
    requires e.pass.pc.stale == Desired(e.pass.id, e.pass.cr, e.pass.pc.child)
    ensures var k := ChildKey(e.pass.id, e.pass.pc.child);
            && (e.after != e.before <==>
                  e.reply.Ok? && Alive(e.before, k) && DraftOf(ObjAt(e.before, k)) != e.pass.pc.stale)
            && (e.after != e.before && !ObjAt(e.before, k).deleting ==>
                  Alive(e.after, k) && DraftOf(ObjAt(e.after, k)) == e.pass.pc.stale)
            && (e.after != e.before && ObjAt(e.before, k).deleting ==> !Alive(e.after, k))
  {
    hide Serve, Desired, ChildKey;
    var k := ChildKey(e.pass.id, e.pass.pc.child);
    DesiredPlain(e.pass.id, e.pass.cr, e.pass.pc.child);
    ServeUnconditional(CellAt(e.before, k), e.pass.pc.stale);
    ApplyAt(e.before, Ask(e.pass), k);
  }

  /**
   When the second write is not harmless. It changes the store exactly if the child was absent when it was read, the
   write succeeds, and what is stored by then is not the desired child: whatever another writer has made of the child
   since, that write has no version to compare and reverts it, and a child marked for deletion it removes.
   */
  lemma UnreadSwapReverts(id: Id, trace: seq<Event>, i: nat)
    requires Legal(id, trace) && i < |trace| && trace[i].pass.pc.Rewrite?
    ensures i > 0
    ensures var e := trace[i]; var k := ChildKey(id, e.pass.pc.child); var want := Desired(id, e.pass.cr, e.pass.pc.child);
            && (e.after != e.before <==>
                  trace[i - 1].pass.pc.MakeMissing? && e.reply.Ok? && Alive(e.before, k) && DraftOf(ObjAt(e.before, k)) != want)
            && (e.after != e.before && !ObjAt(e.before, k).deleting ==> Alive(e.after, k) && DraftOf(ObjAt(e.after, k)) == want)
            && (e.after != e.before && ObjAt(e.before, k).deleting ==> !Alive(e.after, k))
  {
    assert Answered(trace[i]) && Valid(trace[i].before);
    hide Legal, Answered, Desired, ChildKey, Valid, Alive;
    TraceCoherent(id, trace, i);
    FreshRewrite(id, trace, i);
    if trace[i].pass.pc.version == 0 {
      FreshRewriteEffect(trace[i]);
    } else {
      SafeSwap(id, trace, i);
    }
  }
}

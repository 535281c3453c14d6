/**
 What a pass writes into the custom resource: over every trace, each write changes what it is for and nothing else.
 */
module Writes {
  import opened Api
  import opened Kube
  import opened Names
  import opened InstancePass
  import opened AnyEnvironment

  /** What a call is meant to make of the resource. */
  ghost function Intended(p: Pass, o: Obj): Obj {
    match p.pc
    case DropFinalizer => o.(finalizers := Without(o.finalizers, "finalizer.greatsql.cn"))
    case StripFinalizer => o.(finalizers := Without(o.finalizers, "finalizer.greatsql.cn"))
    case InstallFinalizer => o.(finalizers := o.finalizers + ["finalizer.greatsql.cn"])
    case Annotate => o.(meta := Meta(o.meta.annotations["spec" := Json(SpecOf(o))], o.meta.labels, o.meta.owner))
    case ReportStatus(service) =>
      if o.body.Instance? then
        var size := match o.body.spec.size case Some(n) => n case None => 0;
        o.(body := Instance(o.body.spec, Reported(size, service.version)))
      else
        o
    case _ => o
  }

  /** The object under the next version; one that is marked for deletion and has no finalizer left goes. */
  ghost predicate Stored(c: Cell, n: Obj) {
    c.live == if n.deleting && n.finalizers == [] then None else Some(n.(version := c.clock))
  }

  lemma ServeChecked(c: Cell, o: Obj, d: Draft)
    requires ValidCell(c) && Known(c, o)
    ensures var (e, reply) := Serve(c, Update(o.version, d));
            e != c ==>
              && c.live == Some(o) && !(o.deleting && AddsFinalizer(d.finalizers, o.finalizers))
              && var n := o.(finalizers := d.finalizers, meta := d.meta, body := KeepStatus(d.body, o.body));
                 && n != o && e.clock == c.clock + 1
                 && e.live == if n.deleting && n.finalizers == [] then None else Some(n.(version := e.clock))
  {
  }

  lemma ServeReported(c: Cell, o: Obj, status: Status)
    requires ValidCell(c) && Known(c, o)
    ensures var (e, reply) := Serve(c, UpdateStatus(o.version, status));
            e != c ==>
              && c.live == Some(o) && o.body.Instance? && status != o.body.status
              && e.clock == c.clock + 1 && e.live == Some(o.(body := o.body.(status := status), version := e.clock))
  {
  }

  ghost predicate OnResource(p: Pass) {
    !p.pc.Done? && (Ask(p).verb.Update? || Ask(p).verb.UpdateStatus?) && Ask(p).key == InstanceKey(p.id)
  }

  lemma WriteEffect(e: Event)
    requires Answered(e) && Valid(e.before) && Coherent(e.before, e.pass) && OnResource(e.pass)
    ensures var k, o := InstanceKey(e.pass.id), e.pass.cr;
            && o.version != 0
            && (e.after != e.before ==>
                  && CellAt(e.before, k).live == Some(o)
                  && Intended(e.pass, o) != o && Stored(CellAt(e.after, k), Intended(e.pass, o))
                  && CellAt(e.after, k).clock == CellAt(e.before, k).clock + 1
                  && (forall k' | k' != k :: CellAt(e.after, k') == CellAt(e.before, k')))
  {
    hide Serve, Without, Resume;
    var p, k := e.pass, InstanceKey(e.pass.id);
    var c := CellAt(e.before, k);
    ApplyAt(e.before, Ask(p), k);
    forall k' | k' != k ensures CellAt(Apply(e.before, Ask(p)).0, k') == CellAt(e.before, k') {
      ApplyAt(e.before, Ask(p), k');
    }
    if p.pc.ReportStatus? {
      ServeReported(c, p.cr, StatusFor(p.cr, p.pc.service));
    } else {
      ServeChecked(c, p.cr, DraftOf(Edited(p)));
      EditedIntended(p);
    }
  }

  lemma EditedIntended(p: Pass)
    requires OnResource(p) && !p.pc.ReportStatus?
    ensures var o := p.cr;
            Intended(p, o) == o.(finalizers := Edited(p).finalizers, meta := Edited(p).meta, body := KeepStatus(Edited(p).body, o.body))
  {
  }

  /**
   Over every trace, a write of the custom resource takes effect only on the very object that was last read. It makes of it
   what is intended and nothing else: install appends the finalizer, teardown takes it off, the annotation sets
   the key "spec", the report sets the status. Every other field, and every other object, stays as it was.
   */
  lemma ResourceWrites(id: Id, trace: seq<Event>, i: nat)
    requires Legal(id, trace) && i < |trace| && OnResource(trace[i].pass) && trace[i].after != trace[i].before
    ensures var e, k := trace[i], InstanceKey(id); var o := e.pass.cr;
            && CellAt(e.before, k).live == Some(o)
            && Intended(e.pass, o) != o && Stored(CellAt(e.after, k), Intended(e.pass, o))
            && (forall k' | k' != k :: CellAt(e.after, k') == CellAt(e.before, k'))
  {
    assert Answered(trace[i]) && Valid(trace[i].before);
    hide Legal, Answered, Valid, Intended, Stored;
    TraceCoherent(id, trace, i);
    WriteEffect(trace[i]);
  }

  /** No other call touches the custom resource. */
  lemma OtherCallsSpareIt(id: Id, trace: seq<Event>, i: nat)
    requires Legal(id, trace) && i < |trace| && !OnResource(trace[i].pass)
    ensures CellAt(trace[i].after, InstanceKey(id)) == CellAt(trace[i].before, InstanceKey(id))
  {
    assert Answered(trace[i]);
    hide Legal;
    TraceCoherent(id, trace, i);
    ApplyAt(trace[i].before, Ask(trace[i].pass), InstanceKey(id));
  }

  /** A write of the custom resource, status reports included, is refused if it was changed since it was last read. */
  lemma StaleWriteConflicts(id: Id, trace: seq<Event>, i: nat)
    requires Legal(id, trace) && i < |trace| && OnResource(trace[i].pass)
    requires var k := InstanceKey(id); Alive(trace[i].before, k) && ObjAt(trace[i].before, k).version != trace[i].pass.cr.version
    ensures trace[i].after == trace[i].before && (trace[i].reply == Conflict || trace[i].reply == Transient)
    ensures Resume(trace[i].pass, trace[i].reply).pc == Done(true)
  {
    var e := trace[i];
    assert Answered(e) && Valid(e.before);
    hide Legal, Valid;
    TraceCoherent(id, trace, i);
    ApplyAt(e.before, Ask(e.pass), InstanceKey(id));
  }
}

/**
 The calls of a SingleInstance pass as the server sees them: which answers end the pass, and which call follows
 which answer, with the keys written out.
 */
module Calls {
  import opened Api
  import opened Kube
  import opened Names
  import opened InstancePass

  // ----- Keys and specs, literally -----

  function Named(id: Id, kind: Kind, suffix: string): Key { Key(kind, id.ns, id.name + suffix) }

  /** A spec that ends the pass: no size, size zero, or no storage class. */
  predicate Rejected(spec: InstanceSpec) {
    spec.size == None || spec.size == Some(0) || spec.storageClass == None
  }

  /** Teardown goes on to this ordinal; an unset size counts as one, and a negative one as none. */
  predicate HasClaim(spec: InstanceSpec, ordinal: nat) {
    match spec.size
    case None => ordinal == 0
    case Some(n) => ordinal < n
  }

  predicate Carries(o: Obj) { "finalizer.greatsql.cn" in o.finalizers }

  // ----- Which answers end a pass -----

  /**
   The answers that are not errors: an object that is already gone, a child that is not there yet, and any failure of
   the first read of the Deployment.
   */
  predicate Tolerated(p: Pass, reply: Reply)
    requires !p.pc.Done?
  {
    || reply.Ok?
    || p.pc.FindDeployment?
    || (reply.NotFound? && (Ask(p).verb.Delete? || p.pc.Look?))
  }

  /** After this answer the spec just read is checked. */
  predicate Checks(p: Pass, reply: Reply) {
    reply.Ok? && ((p.pc.FetchInstance? && !reply.obj.deleting) || p.pc.ConfirmInstance?)
  }

  /** A pass fails at an answer exactly if the answer is not tolerated, or the spec is then found wanting. */
  lemma FailsIff(p: Pass, reply: Reply)
    requires !p.pc.Done?
    ensures Resume(p, reply).pc == Done(true) <==>
            !Tolerated(p, reply) || (Checks(p, reply) && Rejected(SpecOf(reply.obj)))
  {
  }

  /** A pass succeeds exactly with the last write of the ConfigMap. */
  lemma SucceedsIff(p: Pass, reply: Reply)
    requires !p.pc.Done?
    ensures Resume(p, reply).pc == Done(false) <==> p.pc.Rewrite? && p.pc.child.Config? && reply.Ok?
  {
  }

  // ----- Which call follows -----

  /** The call for the first claim, or else for the Deployment, from this ordinal on. */
  predicate Deletes(id: Id, spec: InstanceSpec, ordinal: nat, req: Request) {
    req == Request(if HasClaim(spec, ordinal) then Named(id, ClaimKind, "-db-" + Decimal(ordinal))
                   else Named(id, DeploymentKind, ""),
                   Delete)
  }

  /** A write of the custom resource, checked against the version last read. */
  predicate Writes(id: Id, o: Obj, d: Draft, req: Request) {
    req == Request(Named(id, InstanceKind, ""), Update(o.version, d))
  }

  lemma AfterFetch(p: Pass, reply: Reply)
    requires p.pc.FetchInstance? && !Resume(p, reply).pc.Done?
    ensures reply.Ok?
    ensures var o, req := reply.obj, Ask(Resume(p, reply));
            if o.deleting then
              if Carries(o) then Deletes(p.id, SpecOf(o), 0, req) else Writes(p.id, o, DraftOf(o), req)
            else if Carries(o) then
              req == Request(Named(p.id, DeploymentKind, ""), Get)
            else
              Writes(p.id, o, DraftOf(o).(finalizers := o.finalizers + ["finalizer.greatsql.cn"]), req)
  {
  }

  /** Teardown: claims in order, Deployment, Service, the ConfigMap without the dash, and then the finalizer, whatever was already gone. */
  lemma AfterDelete(p: Pass, reply: Reply)
    requires !p.pc.Done? && Ask(p).verb.Delete? && !Resume(p, reply).pc.Done?
    ensures reply.Ok? || reply.NotFound?
    ensures var req := Ask(Resume(p, reply));
            match p.pc
            case DeleteClaim(ordinal) => Deletes(p.id, SpecOf(p.cr), ordinal + 1, req)
            case DeleteDeployment => req == Request(Named(p.id, ServiceKind, ""), Delete)
            case DeleteService => req == Request(Named(p.id, ConfigMapKind, "config"), Delete)
            case _ =>
              p.pc.DeleteConfig? && Writes(p.id, p.cr, DraftOf(p.cr).(finalizers := Without(p.cr.finalizers, "finalizer.greatsql.cn")), req)
  {
  }

  /** The writes of the custom resource, each of what the answer before showed. */
  lemma AfterResourceWrite(p: Pass, reply: Reply)
    requires p.pc.DropFinalizer? || p.pc.StripFinalizer? || p.pc.ConfirmInstance? || p.pc.InstallFinalizer?
    requires !Resume(p, reply).pc.Done?
    ensures reply.Ok?
    ensures var o, req := reply.obj, Ask(Resume(p, reply));
            match p.pc
            case DropFinalizer =>
              Writes(p.id, o, DraftOf(o).(finalizers := Without(o.finalizers, "finalizer.greatsql.cn")), req)
            case StripFinalizer => Writes(p.id, o, DraftOf(o), req)
            case ConfirmInstance =>
              if Carries(o) then
                req == Request(Named(p.id, DeploymentKind, ""), Get)
              else
                Writes(p.id, o, DraftOf(o).(finalizers := o.finalizers + ["finalizer.greatsql.cn"]), req)
            case _ => req == Request(Named(p.id, DeploymentKind, ""), Get)
  {
    if p.pc.DropFinalizer? && reply.Ok? && !Carries(reply.obj) {
      WithoutNothing(reply.obj.finalizers, "finalizer.greatsql.cn");
    }
  }

  lemma {:induction false} WithoutNothing(fs: seq<string>, f: string)
    requires f !in fs
    ensures Without(fs, f) == fs
  {
    if fs != [] {
      WithoutNothing(fs[1..], f);
      assert fs == [fs[0]] + fs[1..];
    }
  }

  /** What each Create is for. */
  lemma AfterCreation(p: Pass, reply: Reply)
    requires p.pc.FindDeployment? || p.pc.MakeConfig? || p.pc.MakeClaim? || p.pc.MakeDeployment?
    requires !Resume(p, reply).pc.Done?
    ensures p.pc.FindDeployment? || reply.Ok?
    ensures Resume(p, reply).cr == p.cr
    ensures var req := Ask(Resume(p, reply)); var verb := req.verb;
            match p.pc
            case FindDeployment =>
              if reply.Ok? then
                Writes(p.id, p.cr, Annotated(p.cr), req)
              else
                req.key == Named(p.id, ConfigMapKind, "-config") && verb.Create?
            case MakeConfig => req.key == Named(p.id, ClaimKind, "db") && verb.Create?
            case MakeClaim => req.key == Named(p.id, DeploymentKind, "") && verb.Create?
            case _ => req.key == Named(p.id, ServiceKind, "") && verb.Create?
  {
  }

  /** The status report: of the size in the spec and of the Service just created, under the version last read. */
  lemma AfterService(p: Pass, reply: Reply)
    requires p.pc.MakeService? && !Resume(p, reply).pc.Done?
    ensures reply.Ok? && Resume(p, reply).cr == p.cr
    ensures exists size: int32 ::
              && (SpecOf(p.cr).size == Some(size) || (SpecOf(p.cr).size == None && size == 0))
              && Ask(Resume(p, reply)) ==
                 Request(Named(p.id, InstanceKind, ""), UpdateStatus(p.cr.version, Reported(size, reply.obj.version)))
  {
    var size: int32 := if SpecOf(p.cr).size.Some? then SpecOf(p.cr).size.value else 0;
    assert Ask(Resume(p, reply)) == Request(Named(p.id, InstanceKind, ""), UpdateStatus(p.cr.version, Reported(size, reply.obj.version)));
  }

  /** The object with its own spec as the annotation "spec". */
  function Annotated(o: Obj): Draft {
    Draft(o.finalizers, Meta(o.meta.annotations["spec" := Json(SpecOf(o))], o.meta.labels, o.meta.owner), o.body)
  }

  lemma AfterReport(p: Pass, reply: Reply)
    requires (p.pc.ReportStatus? || p.pc.Annotate?) && !Resume(p, reply).pc.Done?
    ensures reply.Ok? && Resume(p, reply).cr == reply.obj
    ensures var req := Ask(Resume(p, reply));
            if p.pc.ReportStatus? then
              Writes(p.id, reply.obj, Annotated(reply.obj), req)
            else
              req == Request(Named(p.id, DeploymentKind, ""), Get)
  {
  }

  /** updateResource on each child in turn: replace what is there, create what is not, then write a second time. */
  lemma AfterLook(p: Pass, reply: Reply)
    requires p.pc.Look? && !Resume(p, reply).pc.Done?
    ensures reply.Ok? || reply.NotFound?
    ensures var req, key := Ask(Resume(p, reply)), ChildName(p.id, p.pc.child);
            req == Request(key, if reply.Ok? then Update(reply.obj.version, Desired(p.id, p.cr, p.pc.child))
                                else Create(Desired(p.id, p.cr, p.pc.child)))
  {
  }

  function ChildName(id: Id, child: Child): Key {
    match child
    case Workload => Named(id, DeploymentKind, "")
    case Front => Named(id, ServiceKind, "")
    case Config => Named(id, ConfigMapKind, "-config")
  }

  /** The second write: of the object read, under the desired finalizers, annotations, labels and owner; or of the object just created. */
  lemma AfterFirstWrite(p: Pass, reply: Reply)
    requires (p.pc.Overwrite? || p.pc.MakeMissing?) && !Resume(p, reply).pc.Done?
    ensures reply.Ok?
    ensures var req, want := Ask(Resume(p, reply)), Desired(p.id, p.cr, p.pc.child);
            req == Request(ChildName(p.id, p.pc.child),
                           if p.pc.Overwrite? then
                             Update(p.pc.seen.version, Draft(want.finalizers, want.meta, p.pc.seen.body))
                           else
                             Update(0, want))
  {
  }

  /** Deployment, Service, ConfigMap. */
  lemma AfterSecondWrite(p: Pass, reply: Reply)
    requires p.pc.Rewrite? && !Resume(p, reply).pc.Done?
    ensures reply.Ok? && !p.pc.child.Config?
    ensures Ask(Resume(p, reply)) == Request(ChildName(p.id, if p.pc.child.Workload? then Front else Config), Get)
  {
  }

  /**
   In any environment: the first read of the Deployment never ends a pass, whatever the answer. An error on it, of any kind,
   leads to the Create of the ConfigMap.
   */
  lemma FailedReadCreates(id: Id, trace: seq<Event>, i: nat)
    requires Legal(id, trace) && i < |trace| && trace[i].pass.pc.FindDeployment?
    ensures Ask(trace[i].pass) == Request(DeploymentKey(trace[i].pass.id), Get)
    ensures var next := Resume(trace[i].pass, trace[i].reply);
            && !next.pc.Done?
            && (!trace[i].reply.Ok? ==> Ask(next).key == ConfigKey(next.id) && Ask(next).verb.Create?)
            && (i + 1 < |trace| ==> trace[i + 1].pass == next)
  {
    if i + 1 < |trace| {
      assert Follows(trace[i], trace[i + 1]);
    }
  }

  /** What the pass remembers: the resource as the latest answer about it showed it. */
  lemma Remembers(p: Pass, reply: Reply)
    requires !p.pc.Done?
    ensures Resume(p, reply).id == p.id
    ensures !Resume(p, reply).pc.Done? ==>
              Resume(p, reply).cr == if Ask(p).key.kind == InstanceKind then reply.obj else p.cr
  {
  }
}

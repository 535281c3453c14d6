/**
 One reconcile pass for a GroupReplicationCluster, as the sequence of API calls it makes.
 */
module ClusterPass {
  import opened Api
  import opened Kube
  import opened Names
  import opened BufferPool

  datatype Pc =
    | FetchCluster
    | FindSet
    | MakeSecret
    | FindConfig(ordinal: nat)
    | MakeConfig(ordinal: nat)
    | MakeClaim(ordinal: nat)
    | MakeSet(ordinal: nat)
    | MakeHeadless
    | Done(failed: bool)

  /** `uuid` is the random group name that the pass draws. */
  datatype Pass = Pass(id: Id, uuid: string, mgr: Obj, pc: Pc)

  function ClusterOf(o: Obj): ClusterSpec {
    if o.body.Cluster? then o.body.cluster else ClusterSpec([], 0, "", "")
  }

  /** GetSize of a member: whether a size is set, not which. */
  function MemberSize(m: Member): nat {
    if m.size.Some? then 1 else 0
  }

  function Labels(id: Id): map<string, string> {
    map["app.kubernetes.io/name" := id.name]
  }

  function NewSecret(id: Id, mgr: Obj): Draft {
    Draft([], Meta(map[], map["app.kubernetes.io/name" := id.name + "-secret"], None), Env(ClusterOf(mgr).pod))
  }

  function NewConfigMap(p: Pass, ordinal: nat): Draft {
    var host := p.id.name + "-" + Decimal(ordinal) + "." + p.id.name + "-headless." + p.id.ns + ".svc.cluster.local";
    Draft([], NO_META,
          MyCnf(Settings(ordinal, p.uuid, host, CalculateInnodbBufferPoolSize(ClusterOf(p.mgr).memory))))
  }

  function NewClaim(mgr: Obj): Draft {
    Draft([], NO_META, Storage(None, ClusterOf(mgr).pod))
  }

  function NewStatefulSet(id: Id, mgr: Obj, ordinal: nat): Draft {
    Draft([], Meta(map[], map["app.kubernetes.io/name" := id.name, "app.kubernetes.io/instance" := id.name],
                   Some(Owner(ClusterKind, id.name, mgr.uid))),
          SetTemplate(id.name + "-config-" + Decimal(ordinal), id.name + "-headless", ordinal, ClusterOf(mgr)))
  }

  function NewHeadless(id: Id, mgr: Obj): Draft {
    Draft([], Meta(map[], Labels(id), Some(Owner(ClusterKind, id.name, mgr.uid))),
          Ports(id.name, ClusterOf(mgr).service, true))
  }

  function Ask(p: Pass): Request
    requires !p.pc.Done?
  {
    match p.pc
    case FetchCluster => Request(ClusterKey(p.id), Get)
    case FindSet => Request(StatefulSetKey(p.id), Get)
    case MakeSecret => Request(SecretKey(p.id), Create(NewSecret(p.id, p.mgr)))
    case FindConfig(ordinal) => Request(MemberConfigKey(p.id, ordinal), Get)
    case MakeConfig(ordinal) => Request(MemberConfigKey(p.id, ordinal), Create(NewConfigMap(p, ordinal)))
    case MakeClaim(ordinal) => Request(MemberClaimKey(p.id, ordinal), Create(NewClaim(p.mgr)))
    case MakeSet(ordinal) => Request(StatefulSetKey(p.id), Create(NewStatefulSet(p.id, p.mgr, ordinal)))
    case MakeHeadless => Request(HeadlessKey(p.id), Create(NewHeadless(p.id, p.mgr)))
  }

  function Begin(id: Id, uuid: string): Pass { Pass(id, uuid, BLANK, FetchCluster) }

  function Stop(p: Pass, failed: bool): Pass { p.(pc := Done(failed)) }

  /** The head of the ordinal loop. Without members the index of the first one panics, and the pass is lost. */
  function EnterLoop(p: Pass, ordinal: nat): Pass {
    var members := ClusterOf(p.mgr).members;
    if members == [] then Stop(p, true)
    else if ordinal <= MemberSize(members[0]) then p.(pc := FindConfig(ordinal))
    else p.(pc := MakeHeadless)
  }

  function Resume(p: Pass, reply: Reply): Pass
    requires !p.pc.Done?
  {
    match p.pc
    case FetchCluster =>
      if reply.Ok? then p.(mgr := reply.obj, pc := FindSet) else Stop(p, !reply.NotFound?)
    case FindSet =>
      if reply.Ok? then Stop(p, false) else p.(pc := MakeSecret)
    case MakeSecret =>
      if reply.Ok? then EnterLoop(p, 1) else Stop(p, true)
    case FindConfig(ordinal) =>
      if reply.Ok? then p.(pc := MakeClaim(ordinal))
      else if reply.NotFound? then p.(pc := MakeConfig(ordinal))
      else Stop(p, true)
    case MakeConfig(ordinal) =>
      if reply.Ok? then p.(pc := MakeClaim(ordinal)) else Stop(p, true)
    case MakeClaim(ordinal) =>
      if reply.Ok? then p.(pc := MakeSet(ordinal)) else Stop(p, true)
    case MakeSet(ordinal) =>
      if reply.Ok? then EnterLoop(p, ordinal + 1) else Stop(p, true)
    case MakeHeadless => Stop(p, !reply.Ok?)
  }

  function Ordinal(pc: Pc): nat {
    match pc
    case FindConfig(ordinal) => ordinal
    case MakeConfig(ordinal) => ordinal
    case MakeClaim(ordinal) => ordinal
    case MakeSet(ordinal) => ordinal
    case _ => 1
  }

  /** GetSize says at most one, so the loop handles ordinal 1 at most once. */
  lemma NeverOrdinalTwo(p: Pass, reply: Reply)
    requires !p.pc.Done? && Ordinal(p.pc) == 1
    ensures Ordinal(Resume(p, reply).pc) == 1
    ensures p.pc.MakeSet? && reply.Ok? ==> Resume(p, reply).pc.MakeHeadless? || Resume(p, reply).pc.Done?
  {
  }

  /** How far a pass is from its end; after ordinal 1 the loop is over. */
  function Stage(pc: Pc): nat {
    (if Ordinal(pc) == 0 then 10 else 0) + match pc
    case FetchCluster => 10
    case FindSet => 9
    case MakeSecret => 8
    case FindConfig(_) => 7
    case MakeConfig(_) => 6
    case MakeClaim(_) => 5
    case MakeSet(_) => 4
    case MakeHeadless => 3
    case Done(_) => 0
  }

  lemma ResumeDescends(p: Pass, reply: Reply)
    requires !p.pc.Done?
    ensures Stage(Resume(p, reply).pc) < Stage(p.pc)
  {
  }

  /** The store and the pass at the end, when `turns` says what happens before each call; then all is quiet. */
  function Run(s: Store, p: Pass, turns: seq<Turn>): (Store, Pass)
    decreases Stage(p.pc)
  {
    if p.pc.Done? then
      (s, p)
    else
      var (t, reply) := Answer(s, Ask(p), Next(turns));
      ResumeDescends(p, reply);
      Run(t, Resume(p, reply), Rest(turns))
  }

  lemma AskOwned(p: Pass)
    requires !p.pc.Done?
    ensures ClusterOwns(p.id, Ask(p).key)
  {
  }
}

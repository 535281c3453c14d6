/**
 The calls of a cluster pass as the server sees them: which answers end it, and which call follows, with the keys and
 the contents written out.
 */
module ClusterCalls {
  import opened Api
  import opened Kube
  import opened Names
  import opened BufferPool
  import opened ClusterPass
  import opened ClusterFleet
  import opened ClusterConvergence

  function Named(id: Id, kind: Kind, suffix: string): Key { Key(kind, id.ns, id.name + suffix) }

  /** The first member has a size, whichever. */
  predicate FirstSized(o: Obj) {
    ClusterOf(o).members != [] && ClusterOf(o).members[0].size != None
  }

  /** Any error on the read of the StatefulSet is taken for absence; on the read of a ConfigMap only NotFound is. */
  predicate Tolerated(p: Pass, reply: Reply) {
    reply.Ok? || p.pc.FindSet? || (reply.NotFound? && (p.pc.FetchCluster? || p.pc.FindConfig?))
  }

  /** A pass fails exactly at an answer that is not tolerated, or where the first member is looked for and there is none. */
  lemma FailsIff(p: Pass, reply: Reply)
    requires !p.pc.Done?
    ensures Resume(p, reply).pc == Done(true) <==>
            !Tolerated(p, reply) || ((p.pc.MakeSecret? || p.pc.MakeSet?) && ClusterOf(p.mgr).members == [])
  {
  }

  /** It succeeds exactly with nothing to look after, with the StatefulSet there, or with the headless Service made. */
  lemma SucceedsIff(p: Pass, reply: Reply)
    requires !p.pc.Done?
    ensures Resume(p, reply).pc == Done(false) <==>
            (p.pc.FetchCluster? && reply.NotFound?) || (reply.Ok? && (p.pc.FindSet? || p.pc.MakeHeadless?))
  {
  }

  lemma NextCall(p: Pass, reply: Reply)
    requires !p.pc.Done? && Ordinal(p.pc) == 1 && !Resume(p, reply).pc.Done?
    ensures var next := Resume(p, reply); var req := Ask(next);
            && next.id == p.id && next.uuid == p.uuid
            && next.mgr == (if p.pc.FetchCluster? && reply.Ok? then reply.obj else p.mgr)
            && match p.pc
               case FetchCluster => req == Request(Named(p.id, StatefulSetKind, ""), Get)
               case FindSet => !reply.Ok? && req.key == Named(p.id, SecretKind, "-secret") && req.verb.Create?
               case MakeSecret =>
                 if FirstSized(p.mgr) then req == Request(Named(p.id, ConfigMapKind, "-config-1"), Get)
                 else req.key == Named(p.id, ServiceKind, "-headless") && req.verb.Create?
               case FindConfig(_) =>
                 if reply.Ok? then req.key == Named(p.id, ClaimKind, "-db-1") && req.verb.Create?
                 else req.key == Named(p.id, ConfigMapKind, "-config-1") && req.verb.Create?
               case MakeConfig(_) => req.key == Named(p.id, ClaimKind, "-db-1") && req.verb.Create?
               case MakeClaim(_) => req.key == Named(p.id, StatefulSetKind, "") && req.verb.Create?
               case _ => req.key == Named(p.id, ServiceKind, "-headless") && req.verb.Create?
  {
    OneRendered(p.id);
  }

  lemma OneRendered(id: Id)
    ensures Decimal(1) == "1"
    ensures MemberConfigKey(id, 1) == Named(id, ConfigMapKind, "-config-1")
    ensures MemberClaimKey(id, 1) == Named(id, ClaimKind, "-db-1")
  {
    assert Decimal(1) == ['1'] == "1";
    assert id.name + "-config-" + "1" == id.name + "-config-1";
    assert id.name + "-db-" + "1" == id.name + "-db-1";
  }

  const FAULT := Turn([], true)

  /** A failed read of the StatefulSet starts the creation at once, whether there is one or not. */
  lemma FailedSetRead(s: Store, p: Pass, rest: seq<Turn>)
    requires p.pc.FindSet?
    ensures Run(s, p, [FAULT] + rest) == Run(s, p.(pc := MakeSecret), rest)
    ensures Alive(s, SecretKey(p.id)) ==> Run(s, p, [FAULT]) == (s, p.(pc := Done(true)))
  {
    hide Stage;
    assert ([FAULT] + rest)[1..] == rest && [FAULT] == [FAULT] + [];
    assert ApplyAll(s, []) == s;
    assert Answer(s, Ask(p), FAULT) == (s, Transient);
    ResumeDescends(p, Transient);
    if Alive(s, SecretKey(p.id)) {
      var q := p.(pc := MakeSecret);
      assert Answer(s, Ask(q), QUIET) == (s, AlreadyExists);
      ResumeDescends(q, AlreadyExists);
      assert Run(s, q, []) == (s, p.(pc := Done(true)));
    }
  }

  /** A failed read of the ConfigMap ends the pass at once. */
  lemma FailedConfigRead(s: Store, p: Pass, rest: seq<Turn>)
    requires p.pc.FindConfig?
    ensures Run(s, p, [FAULT] + rest) == (s, p.(pc := Done(true)))
  {
    hide Stage;
    assert ([FAULT] + rest)[1..] == rest;
    assert ApplyAll(s, []) == s;
    assert Answer(s, Ask(p), FAULT) == (s, Transient);
    ResumeDescends(p, Transient);
  }

  // ----- What is created -----

  /** The settings of the first member: server 1, the group name drawn, its host, and three quarters of the memory request. */
  lemma MemberSettings(p: Pass)
    requires 0 <= ClusterOf(p.mgr).memory <= 122978293824730344
    ensures var d := NewConfigMap(p, 1);
            && d.finalizers == [] && d.meta == NO_META && d.body.MyCnf?
            && d.body.settings.serverId == 1 && d.body.settings.groupName == p.uuid
            && d.body.settings.host == p.id.name + "-1." + p.id.name + "-headless." + p.id.ns + ".svc.cluster.local"
            && var text := d.body.settings.bufferPool; var digits := text[..|text| - 1];
               && text[|text| - 1] == 'M' && Canonical(digits)
               && Value(digits) * 104857600 <= 75 * ClusterOf(p.mgr).memory < (Value(digits) + 1) * 104857600
  {
    hide CalculateInnodbBufferPoolSize;
    RenderedShare(ClusterOf(p.mgr).memory);
    OneRendered(p.id);
    assert p.id.name + "-" + "1" + "." == p.id.name + "-1.";
  }

  /** Two StatefulSets are the same exactly if the same resource asked for the same cluster. */
  lemma StatefulSetsEqualIff(id: Id, a: Obj, b: Obj)
    ensures NewStatefulSet(id, a, 1) == NewStatefulSet(id, b, 1) <==> a.uid == b.uid && ClusterOf(a) == ClusterOf(b)
    ensures NewHeadless(id, a) == NewHeadless(id, b) <==> a.uid == b.uid && ClusterOf(a).service == ClusterOf(b).service
    ensures NewSecret(id, a) == NewSecret(id, b) <==> ClusterOf(a).pod == ClusterOf(b).pod
    ensures NewClaim(a) == NewClaim(b) <==> ClusterOf(a).pod == ClusterOf(b).pod
  {
  }

  /** The other children, field by field: owned and labelled by the cluster, and made from its spec. */
  lemma ChildContents(id: Id, mgr: Obj)
    requires mgr.body.Cluster?
    ensures var d := NewSecret(id, mgr); var name := id.name + "-secret";
            d == Draft([], Meta(map[], map["app.kubernetes.io/name" := name], None), Env(mgr.body.cluster.pod))
    ensures NewClaim(mgr) == Draft([], NO_META, Storage(None, mgr.body.cluster.pod))
    ensures var d := NewStatefulSet(id, mgr, 1);
            && d.finalizers == [] && d.meta.owner == Some(Owner(ClusterKind, id.name, mgr.uid))
            && d.meta.labels == map["app.kubernetes.io/name" := id.name, "app.kubernetes.io/instance" := id.name]
            && d.body == SetTemplate(id.name + "-config-1", id.name + "-headless", 1, mgr.body.cluster)
    ensures var d := NewHeadless(id, mgr);
            && d.finalizers == [] && d.meta.owner == Some(Owner(ClusterKind, id.name, mgr.uid))
            && d.meta.labels == map["app.kubernetes.io/name" := id.name]
            && d.body == Ports(id.name, mgr.body.cluster.service, true)
  {
    OneRendered(id);
    assert id.name + "-config-" + "1" == id.name + "-config-1";
  }

  ghost predicate Shows(c: Cell, id: Id, mgr: Obj, body: Body) {
    c.live.Some? && c.live.value.body == body && c.live.value.meta.owner == Some(Owner(ClusterKind, id.name, mgr.uid))
  }

  /** The first pass over a sized cluster, in terms of what the store holds afterwards. */
  lemma FirstPassContents(s: Store, id: Id, uuid: string)
    requires var sc := SceneOf(s, id); Open(sc) && sc.config.live.None? && sc.headless.live.None?
    requires Alive(s, ClusterKey(id)) && ObjAt(s, ClusterKey(id)).body.Cluster?
    ensures var t := Run(s, Begin(id, uuid), []).0; var mgr := ObjAt(s, ClusterKey(id)); var spec := mgr.body.cluster;
            && CellAt(t, ClusterKey(id)) == CellAt(s, ClusterKey(id))
            && Holds(CellAt(t, Named(id, SecretKind, "-secret")),
                     Draft([], Meta(map[], map["app.kubernetes.io/name" := id.name + "-secret"], None), Env(spec.pod)))
            && Holds(CellAt(t, Named(id, ClaimKind, "-db-1")), Draft([], NO_META, Storage(None, spec.pod)))
            && Shows(CellAt(t, Named(id, StatefulSetKind, "")), id, mgr,
                     SetTemplate(id.name + "-config-1", id.name + "-headless", 1, spec))
            && Shows(CellAt(t, Named(id, ServiceKind, "-headless")), id, mgr, Ports(id.name, spec.service, true))
            && Holds(CellAt(t, Named(id, ConfigMapKind, "-config-1")), NewConfigMap(Pass(id, uuid, mgr, MakeSecret), 1))
  {
    hide Run, Open, NewSecret, NewClaim, NewStatefulSet, NewHeadless, NewConfigMap;
    FirstPass(s, id, uuid);
    ChildContents(id, ObjAt(s, ClusterKey(id)));
    OneRendered(id);
    assert id.name + "" == id.name;
  }
}

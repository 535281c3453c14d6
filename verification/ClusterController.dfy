/**
 The GroupReplicationCluster controller, method by method. As in InstanceController.dfy the client only lets
 through the call that the pass asks for.
 */
module ClusterController {
  import opened Api
  import opened Kube
  import opened Names
  import opened ApiServer
  import opened ClusterPass

  class Client {
    const server: Server
    ghost var pass: Pass

    constructor (server: Server, id: Id, uuid: string)
      ensures this.server == server && pass == Begin(id, uuid)
    {
      this.server := server;
      this.pass := Begin(id, uuid);
    }

    ghost function Outcome(): (Store, Pass)
      reads this, server
    {
      Run(server.store, pass, server.turns)
    }

    method Do(req: Request) returns (reply: Reply)
      requires !pass.pc.Done? && req == Ask(pass)
      modifies this, server
      ensures pass == Resume(old(pass), reply) && Outcome() == old(Outcome())
    {
      reply := server.Do(req);
      pass := Resume(pass, reply);
    }
  }

  class GroupReplicationClusterReconciler {
    const client: Client
    const id: Id
    const uuid: string

    constructor (client: Client, id: Id, uuid: string)
      ensures this.client == client && this.id == id && this.uuid == uuid
    {
      this.client, this.id, this.uuid := client, id, uuid;
    }

    /** One pass; its effect and its verdict are those of `Run`. */
    method Reconcile() returns (failed: bool)
      requires client.pass == Begin(id, uuid)
      modifies client, client.server
      ensures (client.server.store, client.pass) == old(Run(client.server.store, Begin(id, uuid), client.server.turns))
      ensures client.pass.pc == Done(failed)
    {
      hide Ask;
      var reply := Fetch();
      if !reply.Ok? {
        return !reply.NotFound?;
      }
      var mgr := reply.obj;
      var found := FindStatefulSet(mgr);
      if found {
        return false;
      }
      failed := CreateResources(mgr);
    }

    method Fetch() returns (reply: Reply)
      requires client.pass == Begin(id, uuid)
      modifies client, client.server
      ensures client.Outcome() == old(client.Outcome())
      ensures if reply.Ok? then client.pass == Pass(id, uuid, reply.obj, FindSet)
              else client.pass.pc == Done(!reply.NotFound?)
    {
      hide Run;
      reply := client.Do(Request(ClusterKey(id), Get));
    }

    method FindStatefulSet(mgr: Obj) returns (found: bool)
      requires client.pass == Pass(id, uuid, mgr, FindSet)
      modifies client, client.server
      ensures client.Outcome() == old(client.Outcome())
      ensures if found then client.pass.pc == Done(false) else client.pass == Pass(id, uuid, mgr, MakeSecret)
    {
      hide Run;
      var reply := client.Do(Request(StatefulSetKey(id), Get));
      found := reply.Ok?;
    }

    /** The Secret, then for each ordinal up to GetSize of the first member its objects, then the Service. */
    method CreateResources(mgr: Obj) returns (failed: bool)
      requires client.pass == Pass(id, uuid, mgr, MakeSecret)
      modifies client, client.server
      ensures client.pass.pc == Done(failed) && client.Outcome() == old(client.Outcome())
    {
      hide Run, Ask, Resume;
      failed := CreateSecret(mgr);
      if failed { return; }
      if ClusterOf(mgr).members == [] {
        // the index of the first member is out of range
        return true;
      }
      var size := MemberSize(ClusterOf(mgr).members[0]);
      var ordinal := 1;
      while ordinal <= size
        invariant client.pass == EnterLoop(Pass(id, uuid, mgr, MakeSecret), ordinal)
        invariant 1 <= ordinal <= size + 1
        invariant client.Outcome() == old(client.Outcome())
      {
        failed := CreateConfigMap(mgr, ordinal);
        if failed { return; }
        failed := CreatePersistentVolumeClaim(mgr, ordinal);
        if failed { return; }
        failed := CreateStatefulSet(mgr, ordinal);
        if failed { return; }
        ordinal := ordinal + 1;
      }
      failed := CreateService(mgr);
    }

    method CreateSecret(mgr: Obj) returns (failed: bool)
      requires client.pass == Pass(id, uuid, mgr, MakeSecret)
      modifies client, client.server
      ensures client.Outcome() == old(client.Outcome())
      ensures if failed then client.pass.pc == Done(true)
              else client.pass == EnterLoop(Pass(id, uuid, mgr, MakeSecret), 1)
    {
      hide Run;
      var reply := client.Do(Request(SecretKey(id), Create(NewSecret(id, mgr))));
      failed := !reply.Ok?;
    }

    method CreateConfigMap(mgr: Obj, ordinal: nat) returns (failed: bool)
      requires client.pass == Pass(id, uuid, mgr, FindConfig(ordinal))
      modifies client, client.server
      ensures client.Outcome() == old(client.Outcome())
      ensures if failed then client.pass.pc == Done(true) else client.pass == Pass(id, uuid, mgr, MakeClaim(ordinal))
    {
      hide Run;
      var found := client.Do(Request(MemberConfigKey(id, ordinal), Get));
      if found.Ok? {
        return false;
      }
      if !found.NotFound? {
        return true;
      }
      var draft := NewConfigMap(Pass(id, uuid, mgr, MakeConfig(ordinal)), ordinal);
      var reply := client.Do(Request(MemberConfigKey(id, ordinal), Create(draft)));
      failed := !reply.Ok?;
    }

    method CreatePersistentVolumeClaim(mgr: Obj, ordinal: nat) returns (failed: bool)
      requires client.pass == Pass(id, uuid, mgr, MakeClaim(ordinal))
      modifies client, client.server
      ensures client.Outcome() == old(client.Outcome())
      ensures if failed then client.pass.pc == Done(true) else client.pass == Pass(id, uuid, mgr, MakeSet(ordinal))
    {
      hide Run;
      var reply := client.Do(Request(MemberClaimKey(id, ordinal), Create(NewClaim(mgr))));
      failed := !reply.Ok?;
    }

    method CreateStatefulSet(mgr: Obj, ordinal: nat) returns (failed: bool)
      requires client.pass == Pass(id, uuid, mgr, MakeSet(ordinal))
      modifies client, client.server
      ensures client.Outcome() == old(client.Outcome())
      ensures if failed then client.pass.pc == Done(true)
              else client.pass == EnterLoop(Pass(id, uuid, mgr, MakeSet(ordinal)), ordinal + 1)
    {
      hide Run;
      var reply := client.Do(Request(StatefulSetKey(id), Create(NewStatefulSet(id, mgr, ordinal))));
      failed := !reply.Ok?;
    }

    method CreateService(mgr: Obj) returns (failed: bool)
      requires client.pass == Pass(id, uuid, mgr, MakeHeadless)
      modifies client, client.server
      ensures client.pass.pc == Done(failed) && client.Outcome() == old(client.Outcome())
    {
      hide Run;
      var reply := client.Do(Request(HeadlessKey(id), Create(NewHeadless(id, mgr))));
      failed := !reply.Ok?;
    }
  }
}

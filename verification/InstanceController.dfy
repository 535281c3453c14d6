/**
 The SingleInstance controller and its finalizer, method by method, against the API server as it is
 shared with everybody else.

 The client keeps, as a ghost, the pass that the calls so far amount to. A call is only allowed if it is
 the one that pass asks for, so each method is proved to make exactly the calls of InstancePass.dfy,
 whatever the answers, and to leave the rest of the run as it was.
 */
module InstanceController {
  import opened Api
  import opened Kube
  import opened Names
  import opened ApiServer
  import opened InstancePass

  /** The operator's connection to the server during one pass. */
  class Client {
    const server: Server
    ghost var pass: Pass

    constructor (server: Server, id: Id)
      ensures this.server == server && pass == Begin(id)
    {
      this.server := server;
      this.pass := Begin(id);
    }

    /** How the run ends from here. */
    ghost function Outcome(): (Store, Pass)
      reads this, server
    {
      Run(server.store, pass, server.turns)
    }

    method Do(req: Request) returns (reply: Reply)
      requires !pass.pc.Done? && req == Ask(pass)
      modifies this, server
      ensures pass == Resume(old(pass), reply) && Outcome() == old(Outcome())
      ensures (server.store, reply) == Answer(old(server.store), req, Next(old(server.turns)))
    {
      reply := server.Do(req);
      pass := Resume(pass, reply);
    }
  }

  /** The custom resource in the operator's memory. */
  class SingleInstance {
    var obj: Obj

    constructor ()
      ensures obj == BLANK
    {
      obj := BLANK;
    }
  }

  /** A successful write that keeps some finalizer leaves in the store what it returns. */
  lemma ServeStores(c: Cell, version: nat, d: Draft)
    requires d.finalizers != [] && Serve(c, Update(version, d)).1.Ok?
    ensures var (e, reply) := Serve(c, Update(version, d)); e.live == Some(reply.obj) && reply.obj.finalizers == d.finalizers
  {
  }

  class GreatSqlFinalizer {
    const cli: Client
    const greatSql: SingleInstance
    const id: Id

    constructor (cli: Client, greatSql: SingleInstance, id: Id)
      ensures this.cli == cli && this.greatSql == greatSql && this.id == id
    {
      this.cli, this.greatSql, this.id := cli, greatSql, id;
    }

    /** Without a deletion timestamp there is nothing to do, and nothing is done. */
    method HandleFinalizer() returns (failed: bool)
      requires greatSql.obj.deleting ==> cli.pass == EnterFinalizer(id, greatSql.obj)
      modifies cli, cli.server, greatSql
      ensures cli.Outcome() == old(cli.Outcome())
      ensures old(greatSql.obj.deleting) ==>
                if failed then cli.pass.pc == Done(true) else cli.pass == EnterRemove(id, greatSql.obj)
      ensures !old(greatSql.obj.deleting) ==>
                !failed && cli.pass == old(cli.pass) && greatSql.obj == old(greatSql.obj) && unchanged(cli.server)
    {
      hide Ask, Resume, Run;
      failed := false;
      if greatSql.obj.deleting {
        if FINALIZER in greatSql.obj.finalizers {
          failed := FinalizePersistentVolumeClaims();
          if failed { return; }
          failed := FinalizeDeployment();
          if failed { return; }
          failed := FinalizeService();
          if failed { return; }
          failed := FinalizeConfigMap();
          if failed { return; }
          failed := TakeOff(DropFinalizer);
        }
      }
    }

    /** The edit and the write that HandleFinalizer and RemoveFinalizer share. */
    method TakeOff(ghost pc: Pc) returns (failed: bool)
      requires pc.DropFinalizer? || pc.StripFinalizer?
      requires cli.pass == Pass(id, greatSql.obj, pc)
      modifies cli, cli.server, greatSql
      ensures cli.Outcome() == old(cli.Outcome())
      ensures if failed then cli.pass.pc == Done(true)
              else cli.pass == if pc.DropFinalizer? then EnterRemove(id, greatSql.obj) else Pass(id, greatSql.obj, ConfirmInstance)
    {
      hide Run;
      greatSql.obj := greatSql.obj.(finalizers := Without(greatSql.obj.finalizers, FINALIZER));
      var reply := cli.Do(Request(InstanceKey(id), Update(greatSql.obj.version, DraftOf(greatSql.obj))));
      failed := !reply.Ok?;
      if reply.Ok? {
        greatSql.obj := reply.obj;
      }
    }

    /** What is written is in the store just afterwards; a finalizer that was there already is not written. */
    method AddFinalizer() returns (failed: bool)
      requires cli.pass == Pass(id, greatSql.obj, if Guards(greatSql.obj) then FindDeployment else InstallFinalizer)
      modifies cli, cli.server, greatSql
      ensures cli.Outcome() == old(cli.Outcome())
      ensures if failed then cli.pass.pc == Done(true) else cli.pass == Pass(id, greatSql.obj, FindDeployment)
      ensures !failed ==> Guards(greatSql.obj)
      ensures !failed && !old(Guards(greatSql.obj)) ==> CellAt(cli.server.store, InstanceKey(id)).live == Some(greatSql.obj)
    {
      hide Run, Serve;
      failed := false;
      if FINALIZER !in greatSql.obj.finalizers {
        greatSql.obj := greatSql.obj.(finalizers := greatSql.obj.finalizers + [FINALIZER]);
        var reply := cli.Do(Request(InstanceKey(id), Update(greatSql.obj.version, DraftOf(greatSql.obj))));
        failed := !reply.Ok?;
        if reply.Ok? {
          ghost var before := ApplyAll(old(cli.server.store), Next(old(cli.server.turns)).others);
          ServeStores(CellAt(before, InstanceKey(id)), greatSql.obj.version, DraftOf(greatSql.obj));
          greatSql.obj := reply.obj;
        }
      }
    }

    method RemoveFinalizer() returns (failed: bool)
      requires cli.pass == EnterRemove(id, greatSql.obj)
      modifies cli, cli.server, greatSql
      ensures cli.Outcome() == old(cli.Outcome())
      ensures if failed then cli.pass.pc == Done(true) else cli.pass == Pass(id, greatSql.obj, ConfirmInstance)
    {
      hide Run;
      failed := false;
      if FINALIZER in greatSql.obj.finalizers {
        failed := TakeOff(StripFinalizer);
      }
    }

    method FinalizePersistentVolumeClaims() returns (failed: bool)
      requires cli.pass == EnterClaims(id, greatSql.obj, 0)
      modifies cli, cli.server
      ensures cli.Outcome() == old(cli.Outcome())
      ensures if failed then cli.pass.pc == Done(true) else cli.pass == Pass(id, greatSql.obj, DeleteDeployment)
    {
      hide Run;
      var i := 0;
      while i < GetSize(SpecOf(greatSql.obj))
        invariant cli.pass == EnterClaims(id, greatSql.obj, i)
        invariant cli.Outcome() == old(cli.Outcome())
      {
        var reply := cli.Do(Request(OldClaimKey(id, i), Delete));
        if !reply.Ok? && !reply.NotFound? {
          return true;
        }
        i := i + 1;
      }
      failed := false;
    }

    method FinalizeDeployment() returns (failed: bool)
      requires cli.pass == Pass(id, greatSql.obj, DeleteDeployment)
      modifies cli, cli.server
      ensures cli.Outcome() == old(cli.Outcome())
      ensures if failed then cli.pass.pc == Done(true) else cli.pass == Pass(id, greatSql.obj, DeleteService)
    {
      hide Run;
      var reply := cli.Do(Request(DeploymentKey(id), Delete));
      failed := !reply.Ok? && !reply.NotFound?;
    }

    method FinalizeService() returns (failed: bool)
      requires cli.pass == Pass(id, greatSql.obj, DeleteService)
      modifies cli, cli.server
      ensures cli.Outcome() == old(cli.Outcome())
      ensures if failed then cli.pass.pc == Done(true) else cli.pass == Pass(id, greatSql.obj, DeleteConfig)
    {
      hide Run;
      var reply := cli.Do(Request(ServiceKey(id), Delete));
      failed := !reply.Ok? && !reply.NotFound?;
    }

    method FinalizeConfigMap() returns (failed: bool)
      requires cli.pass == Pass(id, greatSql.obj, DeleteConfig)
      modifies cli, cli.server
      ensures cli.Outcome() == old(cli.Outcome())
      ensures if failed then cli.pass.pc == Done(true) else cli.pass == Pass(id, greatSql.obj, DropFinalizer)
    {
      hide Run;
      var reply := cli.Do(Request(OldConfigKey(id), Delete));
      failed := !reply.Ok? && !reply.NotFound?;
    }
  }

  class SingleInstanceReconciler {
    const client: Client
    const id: Id

    constructor (client: Client, id: Id)
      ensures this.client == client && this.id == id
    {
      this.client, this.id := client, id;
    }

    /**
     One pass. Its effect on the store, and whether it fails, are those of `Run` on the same store and the
     same doings of others.
     */
    method Reconcile() returns (failed: bool)
      requires client.pass == Begin(id)
      modifies client, client.server
      ensures (client.server.store, client.pass) == old(Run(client.server.store, Begin(id), client.server.turns))
      ensures client.pass.pc == Done(failed)
    {
      hide Ask, Resume;
      var cr := new SingleInstance();
      failed := GetSingleInstance(cr);
      if !failed {
        failed := HandleFinalizer(cr);
      }
      if !failed {
        failed := ValidateAndAddFinalizer(cr);
      }
      if !failed {
        failed := CreateResources(cr);
      }
      if !failed {
        failed := WatchResource(cr);
      }
    }

    method GetSingleInstance(cr: SingleInstance) returns (failed: bool)
      requires client.pass == Begin(id) && cr.obj == BLANK
      modifies client, client.server, cr
      ensures client.Outcome() == old(client.Outcome())
      ensures if failed then client.pass.pc == Done(true) else client.pass == EnterFinalizer(id, cr.obj)
    {
      hide Run;
      var reply := client.Do(Request(InstanceKey(id), Get));
      failed := !reply.Ok? && !reply.NotFound?;
      if reply.Ok? {
        cr.obj := reply.obj;
      }
    }

    method HandleFinalizer(cr: SingleInstance) returns (failed: bool)
      requires client.pass == EnterFinalizer(id, cr.obj)
      modifies client, client.server, cr
      ensures client.Outcome() == old(client.Outcome())
      ensures if failed then client.pass.pc == Done(true) else client.pass == EnterValidate(id, cr.obj)
    {
      hide Run;
      failed := false;
      if cr.obj.deleting {
        var finalizer := new GreatSqlFinalizer(client, cr, id);
        failed := finalizer.HandleFinalizer();
        if failed { return; }
        failed := finalizer.RemoveFinalizer();
        if failed { return; }
        var reply := client.Do(Request(InstanceKey(id), Update(cr.obj.version, DraftOf(cr.obj))));
        failed := !reply.Ok?;
        if reply.Ok? {
          cr.obj := reply.obj;
        }
      }
    }

    method ValidateAndAddFinalizer(cr: SingleInstance) returns (failed: bool)
      requires client.pass == EnterValidate(id, cr.obj)
      modifies client, client.server, cr
      ensures client.Outcome() == old(client.Outcome())
      ensures if failed then client.pass.pc == Done(true) else client.pass == Pass(id, cr.obj, FindDeployment)
      ensures !ValidSpec(SpecOf(old(cr.obj))) ==> failed && unchanged(client.server)
      ensures !failed ==> Guards(cr.obj)
      ensures !failed && !old(Guards(cr.obj)) ==> CellAt(client.server.store, InstanceKey(id)).live == Some(cr.obj)
    {
      hide Run, Ask, Resume;
      if !ValidSpec(SpecOf(cr.obj)) {
        return true;
      }
      var finalizer := new GreatSqlFinalizer(client, cr, id);
      failed := finalizer.AddFinalizer();
    }

    method CreateResources(cr: SingleInstance) returns (failed: bool)
      requires client.pass == Pass(id, cr.obj, FindDeployment)
      modifies client, client.server, cr
      ensures client.Outcome() == old(client.Outcome())
      ensures if failed then client.pass.pc == Done(true) else client.pass == Pass(id, cr.obj, Annotate)
    {
      hide Run;
      var reply := client.Do(Request(DeploymentKey(id), Get));
      if reply.Ok? {
        return false;
      }
      failed := CreateConfigMap(cr);
      if failed { return; }
      failed := CreatePersistentVolumeClaim(cr);
      if failed { return; }
      failed := CreateDeployment(cr);
      if failed { return; }
      failed := CreateService(cr);
    }

    method CreateConfigMap(cr: SingleInstance) returns (failed: bool)
      requires client.pass == Pass(id, cr.obj, MakeConfig)
      modifies client, client.server
      ensures client.Outcome() == old(client.Outcome())
      ensures if failed then client.pass.pc == Done(true) else client.pass == Pass(id, cr.obj, MakeClaim)
    {
      hide Run;
      var reply := client.Do(Request(ConfigKey(id), Create(NewConfigMap())));
      failed := !reply.Ok?;
    }

    method CreatePersistentVolumeClaim(cr: SingleInstance) returns (failed: bool)
      requires client.pass == Pass(id, cr.obj, MakeClaim)
      modifies client, client.server
      ensures client.Outcome() == old(client.Outcome())
      ensures if failed then client.pass.pc == Done(true) else client.pass == Pass(id, cr.obj, MakeDeployment)
    {
      hide Run;
      var reply := client.Do(Request(ClaimKey(id), Create(NewClaim(cr.obj))));
      failed := !reply.Ok?;
    }

    method CreateDeployment(cr: SingleInstance) returns (failed: bool)
      requires client.pass == Pass(id, cr.obj, MakeDeployment)
      modifies client, client.server
      ensures client.Outcome() == old(client.Outcome())
      ensures if failed then client.pass.pc == Done(true) else client.pass == Pass(id, cr.obj, MakeService)
    {
      hide Run;
      var reply := client.Do(Request(DeploymentKey(id), Create(NewDeployment(id, cr.obj))));
      failed := !reply.Ok?;
    }

    method CreateService(cr: SingleInstance) returns (failed: bool)
      requires client.pass == Pass(id, cr.obj, MakeService)
      modifies client, client.server, cr
      ensures client.Outcome() == old(client.Outcome())
      ensures if failed then client.pass.pc == Done(true) else client.pass == Pass(id, cr.obj, Annotate)
    {
      hide Run;
      var reply := client.Do(Request(ServiceKey(id), Create(NewService(id, cr.obj))));
      if !reply.Ok? {
        return true;
      }
      failed := ReportService(cr, reply.obj);
    }

    /** updateStatus */
    method ReportService(cr: SingleInstance, service: Obj) returns (failed: bool)
      requires client.pass == Pass(id, cr.obj, ReportStatus(service))
      modifies client, client.server, cr
      ensures client.Outcome() == old(client.Outcome())
      ensures if failed then client.pass.pc == Done(true) else client.pass == Pass(id, cr.obj, Annotate)
    {
      hide Run;
      var reply := client.Do(Request(InstanceKey(id), UpdateStatus(cr.obj.version, StatusFor(cr.obj, service))));
      failed := !reply.Ok?;
      if reply.Ok? {
        cr.obj := reply.obj;
      }
    }

    method WatchResource(cr: SingleInstance) returns (failed: bool)
      requires client.pass == Pass(id, cr.obj, Annotate)
      modifies client, client.server, cr
      ensures client.Outcome() == old(client.Outcome())
      ensures client.pass.pc == Done(failed)
    {
      hide Run, Ask, Resume;
      failed := UpdateSpecAnnotation(cr);
      if failed { return; }
      failed := UpdateResource(DeploymentKey(id), NewDeployment(id, cr.obj), cr, Workload);
      if failed { return; }
      failed := UpdateResource(ServiceKey(id), NewService(id, cr.obj), cr, Front);
      if failed { return; }
      failed := UpdateResource(ConfigKey(id), NewConfigMap(), cr, Config);
    }

    method UpdateSpecAnnotation(cr: SingleInstance) returns (failed: bool)
      requires client.pass == Pass(id, cr.obj, Annotate)
      modifies client, client.server, cr
      ensures client.Outcome() == old(client.Outcome())
      ensures if failed then client.pass.pc == Done(true) else client.pass == Pass(id, cr.obj, Look(Workload))
    {
      hide Run;
      cr.obj := cr.obj.(meta := cr.obj.meta.(annotations := cr.obj.meta.annotations["spec" := Json(SpecOf(cr.obj))]));
      var reply := client.Do(Request(InstanceKey(id), Update(cr.obj.version, DraftOf(cr.obj))));
      failed := !reply.Ok?;
      if reply.Ok? {
        cr.obj := reply.obj;
      }
    }

    /** Reads the object, writes the desired one in its place, then writes what it read under the desired metadata. */
    method UpdateResource(key: Key, wanted: Draft, cr: SingleInstance, ghost child: Child) returns (failed: bool)
      requires client.pass == Pass(id, cr.obj, Look(child))
      requires key == ChildKey(id, child) && wanted == Desired(id, cr.obj, child)
      modifies client, client.server
      ensures client.Outcome() == old(client.Outcome())
      ensures if failed then client.pass.pc == Done(true) else client.pass == EnterNext(id, cr.obj, child)
    {
      hide Run, Desired, ChildKey, Answer;
      var version, existing := 0, wanted;
      var found := client.Do(Request(key, Get));
      if found.Ok? {
        version, existing := found.obj.version, Overlay(found.obj, wanted);
        var replaced := client.Do(Request(key, Update(version, wanted)));
        if !replaced.Ok? {
          return true;
        }
      } else if found.NotFound? {
        var created := client.Do(Request(key, Create(wanted)));
        if !created.Ok? {
          return true;
        }
      } else {
        return true;
      }
      var reply := client.Do(Request(key, Update(version, existing)));
      failed := !reply.Ok?;
    }
  }
}

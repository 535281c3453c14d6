/**
 The entities that the operator reads and writes, as values.

 The two custom resources keep the fields the controllers branch on. Everything a
 constructor in internal/pkg/kube derives from its inputs is represented by those
 inputs: two desired children are equal exactly when the constructors got equal inputs.
 */
module Api {

  datatype Option<+T> = None | Some(value: T)

  type int32 = x: int | -0x8000_0000 <= x < 0x8000_0000

  type int64 = x: int | -0x8000_0000_0000_0000 <= x < 0x8000_0000_0000_0000

  /** The namespaced name of a custom resource, which is also the key of a reconcile request. */
  datatype Id = Id(ns: string, name: string)

  datatype Kind =
    | InstanceKind
    | ClusterKind
    | DeploymentKind
    | StatefulSetKind
    | ServiceKind
    | ConfigMapKind
    | ClaimKind
    | SecretKind

  datatype Key = Key(kind: Kind, ns: string, name: string)

  /** `pod` stands for the fields that only end up in the pod template, `service` for ports and type. */
  datatype InstanceSpec = InstanceSpec(size: Option<int32>, storageClass: Option<string>, pod: string, service: string)

  const EMPTY_SPEC := InstanceSpec(None, None, "", "")

  /** The size that teardown uses: an unset size counts as one. */
  function GetSize(spec: InstanceSpec): int32 {
    match spec.size
    case Some(n) => n
    case None => 1
  }

  datatype Status = NoStatus | Reported(size: int32, service: nat)

  datatype Member = Member(role: string, size: Option<int32>)

  datatype ClusterSpec = ClusterSpec(members: seq<Member>, memory: int64, pod: string, service: string)

  /** An annotation value: plain text, or the JSON of a spec. */
  datatype Note = Text(text: string) | Json(spec: InstanceSpec)

  datatype Owner = Owner(kind: Kind, name: string, uid: nat)

  datatype Meta = Meta(annotations: map<string, Note>, labels: map<string, string>, owner: Option<Owner>)

  const NO_META := Meta(map[], map[], None)

  datatype Body =
    | Instance(spec: InstanceSpec, status: Status)
    | Cluster(cluster: ClusterSpec)
    | PodTemplate(volume: string, pod: InstanceSpec)
    | SetTemplate(volume: string, serving: string, ordinal: nat, template: ClusterSpec)
    | Ports(selector: string, ports: string, headless: bool)
    | MyCnf(settings: Settings)
    | Storage(storageClass: Option<string>, request: string)
    | Env(env: string)

  datatype Settings = Settings(serverId: nat, groupName: string, host: string, bufferPool: string)

  /** What a client sends: everything of an object that a client may choose. */
  datatype Draft = Draft(finalizers: seq<string>, meta: Meta, body: Body)

  /** What the server keeps. Version 0 never occurs in the store; in a client's memory it is the empty version. */
  datatype Obj = Obj(uid: nat, version: nat, deleting: bool, finalizers: seq<string>, meta: Meta, body: Body)

  /** The zero value that a failed Get leaves in memory. */
  const BLANK := Obj(0, 0, false, [], NO_META, Instance(EMPTY_SPEC, NoStatus))

  function SpecOf(o: Obj): InstanceSpec {
    if o.body.Instance? then o.body.spec else EMPTY_SPEC
  }

  function DraftOf(o: Obj): Draft {
    Draft(o.finalizers, o.meta, o.body)
  }
}

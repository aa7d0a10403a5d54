/** The Kubernetes objects the operator reads and writes, as values, and the two ways it touches the
    API server's tables: look a key up, and store or remove an entry. */
module Kube {

  datatype Option<+T> = None | Some(value: T)

  /** A namespaced name. */
  datatype Key = Key(ns: string, name: string)

  /** `targetPort` of a Service port: a number and a name, at most one of them meaningful. */
  datatype TargetPort = TargetPort(intVal: int, strVal: string)

  datatype ServicePort = ServicePort(name: string, port: int, target: TargetPort, protocol: string)

  /** A Service; its name and namespace are the key it is stored under. */
  datatype Service = Service(uid: string, annotations: map<string, string>, clusterIP: string, ports: seq<ServicePort>)

  datatype ContainerPort = ContainerPort(name: string, port: int, protocol: string)

  datatype EnvVar =
    | Inline(name: string, value: string)
    | FromSecret(name: string, secretName: string, secretKey: string)

  datatype Mount = Mount(volume: string, path: string)

  /** A container; `extra` stands for the fields the operator neither reads nor computes. */
  datatype Container = Container(
    name: string, image: string, env: seq<EnvVar>, mounts: seq<Mount>,
    ports: seq<ContainerPort>, command: seq<string>, extra: string)

  datatype VolumeSource = EmptyDir(inMemory: bool) | Claim(claimName: string) | OtherSource(tag: string)

  datatype Volume = Volume(name: string, source: VolumeSource)

  datatype Owner = Owner(name: string, uid: string)

  /** What the operator asks for when it creates a pod. */
  datatype PodSpec = PodSpec(
    labels: map<string, string>, annotations: map<string, string>, owner: Owner,
    containers: seq<Container>, volumes: seq<Volume>)

  datatype Phase = Pending | Running | Finished

  /** A pod: the created specification and the status the kubelet reports. */
  datatype Pod = Pod(spec: PodSpec, phase: Phase, ip: string)

  datatype EndpointPort = EndpointPort(name: string, port: int, protocol: string)

  datatype Subset = Subset(ip: string, targetPod: Key, ports: seq<EndpointPort>)

  /** Endpoints with the resource version used for optimistic locking. */
  datatype Endpoints = Endpoints(subsets: seq<Subset>, rev: nat)

  type Secrets = map<Key, map<string, string>>

  /** The operator process: its environment variables, and the fixed shell text that detects the
      WireGuard address when no bind address is configured. */
  datatype Config = Config(env: map<string, string>, prelude: string)

  /** How an API call ends: it succeeds, it fails without effect, or it takes effect although the
      caller sees an error. */
  datatype Outcome = Ok | Lost | Applied

  /** What the rest of the world does before the next API call, and how that call ends. */
  datatype Turn<E> = Turn(others: seq<E>, out: Outcome)

  predicate HasField(secrets: Secrets, key: Key, field: string) {
    key in secrets && field in secrets[key]
  }

  function Lookup<K, V>(m: map<K, V>, k: K): Option<V> {
    if k in m then Some(m[k]) else None
  }

  function Store<K, V>(m: map<K, V>, k: K, v: Option<V>): map<K, V> {
    match v
    case Some(x) => m[k := x]
    case None => m - {k}
  }

  /** Reading a map that may lack the key, as Go does: the zero value is the empty string. */
  function ValueOf(m: map<string, string>, key: string): string {
    if key in m then m[key] else ""
  }

  /** The map says just this of the key. */
  predicate Says(m: map<string, string>, key: string, value: string) {
    key in m && m[key] == value
  }

  /** The map gives the key a value that is not empty. */
  predicate Gives(m: map<string, string>, key: string) {
    key in m && m[key] != ""
  }

  function FirstNonEmpty(names: seq<string>): string {
    if names == [] then "" else if names[0] != "" then names[0] else FirstNonEmpty(names[1..])
  }

  /** It is one of the names, with nothing but empty ones before it, unless all are empty. */
  lemma {:induction false} FirstNonEmptyWorks(names: seq<string>)
    ensures FirstNonEmpty(names) == "" <==> forall i | 0 <= i < |names| :: names[i] == ""
    ensures FirstNonEmpty(names) != "" ==>
              exists i | 0 <= i < |names| :: names[i] == FirstNonEmpty(names) && forall j | 0 <= j < i :: names[j] == ""
  {
    if names != [] {
      FirstNonEmptyWorks(names[1..]);
      if names[0] == "" && FirstNonEmpty(names) != "" {
        var i :| 0 <= i < |names[1..]| && names[1..][i] == FirstNonEmpty(names) && forall j | 0 <= j < i :: names[1..][j] == "";
        assert names[i + 1] == FirstNonEmpty(names);
        assert forall j | 0 < j < i + 1 :: names[j] == names[1..][j - 1];
      }
      assert forall i | 0 < i < |names| :: names[i] == names[1..][i - 1];
    }
  }

  lemma FirstOfTwo(a: string, b: string)
    ensures FirstNonEmpty([a, b]) == if a != "" then a else b
  {
    assert [a, b][1..] == [b] && [b][1..] == [];
    assert FirstNonEmpty([b]) == b;
  }

  lemma FirstOfThree(a: string, b: string, c: string)
    ensures FirstNonEmpty([a, b, c]) == if a != "" then a else if b != "" then b else c
  {
    assert [a, b, c][1..] == [b, c];
    FirstOfTwo(b, c);
  }

  /** An unset and an empty environment variable both mean the default. */
  function EnvOr(env: map<string, string>, key: string, default: string): string {
    if ValueOf(env, key) != "" then ValueOf(env, key) else default
  }
}

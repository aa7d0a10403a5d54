/** The admission webhook as it is written: pod templates rewritten in place, flags set in loops, maps
    merged key by key, claims looked up and created through a failing API server. */
module Webhook {
  import opened Kube
  import opened Injection

  datatype Meta = Meta(labels: Strings, annotations: Strings, rest: string)

  /** An object under admission. For a Pod, `template` plays no part. */
  datatype Object = Object(kind: string, meta: Meta, status: string, specRest: string, template: Meta, spec: Template)

  /** The value found at `/spec` of an object. */
  datatype SpecValue = SpecValue(specRest: string, template: Meta, spec: Template)

  datatype Response = Errored(code: int) | Allowed | Patched(path: string, value: SpecValue)

  /** A JSON Patch `replace` of `/spec` (section 4.3 of RFC 6902): the value there is exchanged, the rest
      of the document stays. */
  function ApplyPatch(o: Object, r: Response): Object {
    if r.Patched? && r.path == "/spec" then
      o.(specRest := r.value.specRest, template := r.value.template, spec := r.value.spec)
    else o
  }

  predicate Supported(kind: string) {
    kind == "Pod" || kind == "Deployment" || kind == "StatefulSet" || kind == "DaemonSet" || kind == "Job" || kind == "ReplicaSet"
  }

  predicate Labelled(o: Object) {
    HasLabel(o.meta.labels) || (o.kind != "Pod" && HasLabel(o.template.labels))
  }

  function LabelsOf(o: Object): Strings {
    if o.kind == "Pod" then o.meta.labels else o.meta.labels + o.template.labels
  }

  function AnnotationsOf(o: Object): Strings {
    if o.kind == "Pod" then o.meta.annotations else o.meta.annotations + o.template.annotations
  }

  /** A pod template in memory, appended to in place. */
  class PodTemplate {
    var containers: seq<Container>
    var volumes: seq<Volume>
    const initContainers: seq<Container>
    const extra: string

    /** A deep copy. */
    constructor (p: Template)
      ensures Value() == p
    {
      containers, volumes, initContainers, extra := p.containers, p.volumes, p.initContainers, p.extra;
    }

    function Value(): Template
      reads this
    {
      Template(containers, initContainers, volumes, extra)
    }
  }

  method HasNetclientSidecar(cs: seq<Container>) returns (found: bool)
    ensures found <==> HasSidecar(cs)
  {
    for i := 0 to |cs|
      invariant forall j | 0 <= j < i :: cs[j].name != "netclient"
    {
      if cs[i].name == "netclient" {
        return true;
      }
    }
    return false;
  }

  /** Merging copies both maps in whatever order the iteration yields; the result is always the first
      overridden by the second. */
  method MergeMaps(base: Strings, override: Strings) returns (result: Strings)
    ensures result == base + override
  {
    result := map[];
    var todo := base.Keys;
    while todo != {}
      invariant todo <= base.Keys
      invariant result == base - todo
    {
      var k :| k in todo;
      result := result[k := base[k]];
      todo := todo - {k};
    }
    todo := override.Keys;
    while todo != {}
      invariant todo <= override.Keys
      invariant result == base + (override - todo)
    {
      var k :| k in todo;
      result := result[k := override[k]];
      todo := todo - {k};
    }
  }

  class NetclientSidecarWebhook {
    const env: Strings
    const hasDecoder: bool
    const hasClient: bool
    const secrets: Secrets
    const turns: seq<Turn<ClaimEvent>>
    var calls: nat
    var claims: map<Key, Pvc>
    ghost const init: map<Key, Pvc>
    ghost var log: seq<ClaimEvent>

    constructor (env: Strings, hasDecoder: bool, hasClient: bool, secrets: Secrets, claims: map<Key, Pvc>, turns: seq<Turn<ClaimEvent>>)
      ensures Valid() && log == [] && this.claims == claims && init == claims
    {
      this.env, this.hasDecoder, this.hasClient, this.secrets := env, hasDecoder, hasClient, secrets;
      this.turns, this.calls, this.claims, this.init, this.log := turns, 0, claims, claims, [];
    }

    ghost predicate Valid()
      reads this
    {
      claims == ClaimsAfter(init, log)
    }

    function TurnAt(n: nat): Turn<ClaimEvent> {
      if n < |turns| then turns[n] else Turn([], Ok)
    }

    /** Others did this in one of the turns from `from` until now. */
    ghost predicate Scheduled(from: nat, e: ClaimEvent)
      reads this`calls
    {
      exists n: nat :: from <= n < calls && e in TurnAt(n).others
    }

    /** All that the webhook itself did to the claims since then was to create some. */
    ghost predicate OnlyCreated(before: seq<ClaimEvent>, from: nat)
      reads this
    {
      before <= log && from <= calls && forall e | e in log[|before|..] :: e.Created? || Scheduled(from, e)
    }

    /** A claim that others neither edited nor deleted since then is what it was. */
    ghost predicate Preserved(before: map<Key, Pvc>, from: nat)
      reads this
    {
      forall k | k in before && (forall e :: Scheduled(from, e) ==> e.Created? || e.key != k) ::
        k in claims && claims[k] == before[k]
    }

    lemma CreationsPreserve(log0: seq<ClaimEvent>, claims0: map<Key, Pvc>, from: nat)
      requires Valid() && OnlyCreated(log0, from) && claims0 == ClaimsAfter(init, log0)
      ensures Preserved(claims0, from)
    {
      var es := log[|log0|..];
      assert log == log0 + es;
      ClaimsConcat(init, log0, es);
      forall k | k in claims0 && (forall e :: Scheduled(from, e) ==> e.Created? || e.key != k)
        ensures k in claims && claims[k] == claims0[k]
      {
        ClaimStays(claims0, es, k);
      }
    }

    /** Others change the claims, then the next call's outcome is drawn. */
    method Others() returns (out: Outcome)
      requires Valid()
      modifies this`claims, this`calls, this`log
      ensures Valid() && OnlyCreated(old(log), old(calls))
      ensures calls == old(calls) + 1 && log == old(log) + TurnAt(old(calls)).others && out == TurnAt(old(calls)).out
      ensures claims == ClaimsAfter(old(claims), TurnAt(old(calls)).others)
    {
      var turn := TurnAt(calls);
      ClaimsConcat(init, log, turn.others);
      claims := ClaimsAfter(claims, turn.others);
      calls, log := calls + 1, log + turn.others;
      out := turn.out;
    }

    /** The creation of a claim, and what others do before it: it succeeds if the name is free then and the
        call goes well, and takes effect if the name is free and the call is not lost. */
    method CreatePVC(key: Key, pvc: Pvc) returns (ok: bool)
      requires Valid()
      modifies this`claims, this`calls, this`log
      ensures Valid() && OnlyCreated(old(log), old(calls)) && calls == old(calls) + 1
      ensures
        var turn := TurnAt(old(calls));
        var now := ClaimsAfter(old(claims), turn.others);
        && (ok <==> key !in now && turn.out == Ok)
        && claims == if key !in now && turn.out != Lost then now[key := pvc] else now
    {
      var out := Others();
      ok := key !in claims && out == Ok;
      if key !in claims && out != Lost {
        claims := claims[key := pvc];
        log := log + [Created(key, pvc)];
        assert log[..|log| - 1] + [log[|log| - 1]] == log;
      }
    }

    /** Ensuring this claim succeeds from here: the look-up goes well and sees it, or sees none and the
        creation goes well with the name still free. */
    ghost predicate Ensured(key: Key, before: map<Key, Pvc>, from: nat) {
      var look, create := TurnAt(from), TurnAt(from + 1);
      var seen := ClaimsAfter(before, look.others);
      look.out == Ok && (key in seen || (key !in ClaimsAfter(seen, create.others) && create.out == Ok))
    }

    /** Looks the claim up and creates it if it is not there. Success means that the claim was seen or made;
        it comes exactly if there is a client, the look-up goes well, and either it sees the claim or the
        creation goes well with the name still free. A claim made is of the configured size and storage
        class and marked as the webhook's; nothing else is done to the claims than others do. */
    method EnsurePVCExists(name: string, ns: string) returns (ok: bool)
      requires Valid()
      modifies this`claims, this`calls, this`log
      ensures Valid() && OnlyCreated(old(log), old(calls)) && Preserved(old(claims), old(calls))
      ensures ok ==> hasClient && Key(ns, name) in claims
      ensures ok <==> hasClient && Ensured(Key(ns, name), old(claims), old(calls))
      ensures !hasClient ==> claims == old(claims) && calls == old(calls)
      ensures hasClient ==>
                var key, look, create := Key(ns, name), TurnAt(old(calls)), TurnAt(old(calls) + 1);
                var seen := ClaimsAfter(old(claims), look.others);
                var later := ClaimsAfter(seen, create.others);
                && (ok <==> look.out == Ok && (key in seen || (key !in later && create.out == Ok)))
                && (look.out != Ok || key in seen ==> claims == seen && calls == old(calls) + 1)
                && (look.out == Ok && key !in seen && (key in later || create.out == Lost) ==> claims == later)
                && (look.out == Ok && key !in seen && key !in later && create.out != Lost ==>
                      && claims.Keys == later.Keys + {key} && (forall k | k in later :: claims[k] == later[k])
                      && claims[key].size == FirstNonEmpty([ValueOf(env, "NETCLIENT_PVC_STORAGE_SIZE"), "1Gi"])
                      && claims[key].storageClass == ValueOf(env, "NETCLIENT_PVC_STORAGE_CLASS") && claims[key].managed)
    {
      if !hasClient {
        return false;
      }
      var key := Key(ns, name);
      ghost var log0, claims0 := log, claims;
      FirstOfTwo(ValueOf(env, "NETCLIENT_PVC_STORAGE_SIZE"), "1Gi");
      var out := Others();
      if out != Ok || key in claims {
        ok := out == Ok;
      } else {
        ghost var log1, calls1 := log, calls;
        ok := CreatePVC(key, Pvc(EnvOr(env, "NETCLIENT_PVC_STORAGE_SIZE", "1Gi"), ValueOf(env, "NETCLIENT_PVC_STORAGE_CLASS"), true));
        OnlyCreatedTwice(log0, old(calls), log1, calls1);
      }
      CreationsPreserve(log0, claims0, old(calls));
    }

    lemma OnlyCreatedTwice(log0: seq<ClaimEvent>, calls0: nat, log1: seq<ClaimEvent>, calls1: nat)
      requires OnlyCreated(log1, calls1) && calls0 <= calls1
      requires log0 <= log1 && forall e | e in log1[|log0|..] :: e.Created? || Scheduled(calls0, e)
      ensures OnlyCreated(log0, calls0)
    {
      assert log[|log0|..] == log1[|log0|..] + log[|log1|..];
    }

    /** Adds the two volumes that are not there yet. A claim that cannot be ensured gives way to an
        empty directory; `claim` is the name finally used. */
    method AddNetclientVolumes(p: PodTemplate, ns: string, annotations: Strings) returns (ghost claim: string)
      requires Valid()
      modifies p`volumes, this`claims, this`calls, this`log
      ensures Valid() && OnlyCreated(old(log), old(calls)) && Preserved(old(claims), old(calls))
      ensures p.volumes == AddVolume(AddVolume(old(p.volumes), EtcVolume(claim)), LogVolume())
      ensures
        var name := PvcName(env, annotations, ns);
        claim == if name != "" && hasClient && !Ensured(Key(ns, name), old(claims), old(calls)) then "" else name
      ensures claim != "" && hasClient ==> Key(ns, claim) in claims
    {
      var hasEtc, hasLog := false, false;
      for i := 0 to |p.volumes|
        invariant hasEtc <==> exists j | 0 <= j < i :: p.volumes[j].name == "etc-netclient"
        invariant hasLog <==> exists j | 0 <= j < i :: p.volumes[j].name == "log-netclient"
        invariant p.volumes == old(p.volumes) && claims == old(claims) && log == old(log) && calls == old(calls) && Valid()
      {
        if p.volumes[i].name == "etc-netclient" {
          hasEtc := true;
        }
        if p.volumes[i].name == "log-netclient" {
          hasLog := true;
        }
      }
      var pvcName := PvcName(env, annotations, ns);
      if pvcName != "" && hasClient {
        var ok := EnsurePVCExists(pvcName, ns);
        if !ok {
          pvcName := "";
        }
      }
      claim := pvcName;
      ghost var before := p.volumes;
      if !hasEtc {
        p.volumes := p.volumes + [EtcVolume(pvcName)];
      }
      assert HasVolume(p.volumes, "log-netclient") <==> hasLog by { OnlyEtcAdded(before, pvcName); }
      if !hasLog {
        p.volumes := p.volumes + [LogVolume()];
      }
    }

    lemma OnlyEtcAdded(vs: seq<Volume>, claim: string)
      ensures HasVolume(vs + [EtcVolume(claim)], "log-netclient") <==> HasVolume(vs, "log-netclient")
    {
      var r := vs + [EtcVolume(claim)];
      assert r[|vs|].name == "etc-netclient";
      assert forall i | 0 <= i < |vs| :: r[i] == vs[i];
    }

    /** The field of the secret that the labels name, in the namespace they name. */
    function TokenSecret(labels: Strings, ns: string): Option<string> {
      var key := Key(EnvOr(labels, "netmaker.io/secret-namespace", ns),
                     EnvOr(labels, "netmaker.io/secret-name", EnvOr(env, "NETCLIENT_SECRET_NAME", "netclient-token")));
      var field := EnvOr(labels, "netmaker.io/secret-key", EnvOr(env, "NETCLIENT_SECRET_KEY", "token"));
      match Lookup(secrets, key)
      case None => None
      case Some(data) => Lookup(data, field)
    }

    /** The token: that secret's field if the read of it went through and it is there, and otherwise, or
        without a client, what the environment says. */
    function TokenFor(labels: Strings, ns: string, read: Outcome): string {
      if hasClient && read == Ok && TokenSecret(labels, ns).Some? then TokenSecret(labels, ns).value
      else ValueOf(env, "NETCLIENT_TOKEN")
    }

    /** In the words of labels and environment: which secret, which field of it, and where. */
    lemma TokenForIs(labels: Strings, ns: string, read: Outcome)
      ensures
        var name := FirstNonEmpty([ValueOf(labels, "netmaker.io/secret-name"), ValueOf(env, "NETCLIENT_SECRET_NAME"), "netclient-token"]);
        var field := FirstNonEmpty([ValueOf(labels, "netmaker.io/secret-key"), ValueOf(env, "NETCLIENT_SECRET_KEY"), "token"]);
        var key := Key(FirstNonEmpty([ValueOf(labels, "netmaker.io/secret-namespace"), ns]), name);
        TokenFor(labels, ns, read)
        == if hasClient && read == Ok && HasField(secrets, key, field) then secrets[key][field] else ValueOf(env, "NETCLIENT_TOKEN")
    {
      FirstOfThree(ValueOf(labels, "netmaker.io/secret-name"), ValueOf(env, "NETCLIENT_SECRET_NAME"), "netclient-token");
      FirstOfThree(ValueOf(labels, "netmaker.io/secret-key"), ValueOf(env, "NETCLIENT_SECRET_KEY"), "token");
      FirstOfTwo(ValueOf(labels, "netmaker.io/secret-namespace"), ns);
    }

    /** Ensuring this claim succeeds after the call that reads the token. */
    ghost predicate EnsuredAfterRead(key: Key, before: map<Key, Pvc>, from: nat) {
      Ensured(key, ClaimsAfter(before, TurnAt(from).others), from + 1)
    }

    /** The read of the secret is the next call, if there is a client to make it. */
    method GetToken(labels: Strings, ns: string) returns (token: string)
      requires Valid()
      modifies this`claims, this`calls, this`log
      ensures Valid() && OnlyCreated(old(log), old(calls)) && Preserved(old(claims), old(calls))
      ensures token == TokenFor(labels, ns, TurnAt(old(calls)).out)
      ensures calls == if hasClient then old(calls) + 1 else old(calls)
      ensures claims == if hasClient then ClaimsAfter(old(claims), TurnAt(old(calls)).others) else old(claims)
    {
      token := ValueOf(env, "NETCLIENT_TOKEN");
      if hasClient {
        ghost var log0, claims0, calls0 := log, claims, calls;
        var out := Others();
        CreationsPreserve(log0, claims0, calls0);
        var found := TokenSecret(labels, ns);
        if out == Ok && found.Some? {
          token := found.value;
        }
      }
    }

    method AddNetclientSidecar(p: PodTemplate, labels: Strings, annotations: Strings, ns: string)
      returns (ghost claim: string)
      requires Valid()
      modifies p, this`claims, this`calls, this`log
      ensures Valid() && OnlyCreated(old(log), old(calls)) && Preserved(old(claims), old(calls))
      ensures p.Value() == Injected(env, old(p.Value()), TokenFor(labels, ns, TurnAt(old(calls)).out), claim)
      ensures
        var name := PvcName(env, annotations, ns);
        claim == if name != "" && hasClient && !EnsuredAfterRead(Key(ns, name), old(claims), old(calls)) then "" else name
      ensures claim != "" && hasClient ==> Key(ns, claim) in claims
    {
      ghost var log0, claims0, calls0 := log, claims, calls;
      var server, network := ValueOf(env, "NETCLIENT_SERVER"), ValueOf(env, "NETCLIENT_NETWORK");
      var value := GetToken(labels, ns);
      var envVars := [Inline("TOKEN", value), Inline("DAEMON", "on"), Inline("LOG_LEVEL", "info")];
      if server != "" {
        envVars := envVars + [Inline("SERVER", server)];
      }
      if network != "" {
        envVars := envVars + [Inline("NETWORK", network)];
      }
      var c := Container("netclient", EnvOr(env, "NETCLIENT_IMAGE", "gravitl/netclient:v1.4.0"), envVars,
                         [Mount("etc-netclient", "/etc/netclient"), Mount("log-netclient", "/var/log")], [], [],
                         "netclient-security-and-probe");
      assert c == Sidecar(env, value);
      p.containers := p.containers + [c];
      ghost var log1, calls1 := log, calls;
      claim := AddNetclientVolumes(p, ns, annotations);
      OnlyCreatedTwice(log0, calls0, log1, calls1);
      CreationsPreserve(log0, claims0, calls0);
    }

    /** The whole admission. A patch is answered exactly for a decodable, supported, labelled object
        without the container; applying it changes nothing of the object but the pod specification,
        which becomes the injected one; a claim it names was there at the last call, unless the webhook has no
        client; and of the claims themselves the webhook touches none that exists. */
    method Handle(kind: string, decoded: Option<Object>, ns: string) returns (r: Response, ghost claim: string)
      requires Valid() && (decoded.Some? ==> decoded.value.kind == kind)
      modifies this`claims, this`calls, this`log
      ensures Valid() && OnlyCreated(old(log), old(calls)) && Preserved(old(claims), old(calls))
      ensures r.Patched? <==>
                && hasDecoder && kind in {"Pod", "Deployment", "StatefulSet", "DaemonSet", "Job", "ReplicaSet"} && decoded.Some?
                && (Says(decoded.value.meta.labels, "netmaker.io/netclient", "enabled")
                    || (kind != "Pod" && Says(decoded.value.template.labels, "netmaker.io/netclient", "enabled")))
                && !exists i | 0 <= i < |decoded.value.spec.containers| :: decoded.value.spec.containers[i].name == "netclient"
      ensures r.Errored? <==> !hasDecoder || (Supported(kind) && decoded.None?)
      ensures r.Errored? ==> r.code == if hasDecoder then 400 else 500
      ensures decoded.Some? && !r.Patched? ==> ApplyPatch(decoded.value, r) == decoded.value && claim == ""
      ensures r.Patched? ==>
                var o := decoded.value;
                var labels := if kind == "Pod" then o.meta.labels else o.meta.labels + o.template.labels;
                var annotations := if kind == "Pod" then o.meta.annotations else o.meta.annotations + o.template.annotations;
                var name := PvcName(env, annotations, ns);
                && ApplyPatch(o, r) == o.(spec := Injected(env, o.spec, TokenFor(labels, ns, TurnAt(old(calls)).out), claim))
                && claim == if name != "" && hasClient && !EnsuredAfterRead(Key(ns, name), old(claims), old(calls)) then "" else name
      ensures decoded.Some? && hasDecoder && Supported(kind) ==>
                var token := TokenFor(LabelsOf(decoded.value), ns, TurnAt(old(calls)).out);
                ApplyPatch(decoded.value, r)
                == decoded.value.(spec := Admit(env, decoded.value.spec, Level(Labelled(decoded.value), token, claim)))
      ensures r.Patched? && claim != "" && hasClient ==> Key(ns, claim) in claims
    {
      claim := "";
      if !hasDecoder {
        return Errored(500), claim;
      }
      if !Supported(kind) {
        return Allowed, claim;
      }
      if decoded.None? {
        return Errored(400), claim;
      }
      var o := decoded.value;
      if !HasLabel(o.meta.labels) && (kind == "Pod" || !HasLabel(o.template.labels)) {
        return Allowed, claim;
      }
      var found := HasNetclientSidecar(o.spec.containers);
      if found {
        return Allowed, claim;
      }
      var copy := new PodTemplate(o.spec);
      var labels, annotations := o.meta.labels, o.meta.annotations;
      if kind != "Pod" {
        annotations := MergeMaps(o.meta.annotations, o.template.annotations);
        labels := MergeMaps(o.meta.labels, o.template.labels);
      }
      claim := AddNetclientSidecar(copy, labels, annotations, ns);
      r := Patched("/spec", SpecValue(o.specRest, o.template, copy.Value()));
    }
  }
}

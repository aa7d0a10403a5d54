/** Netclient sidecar injection, as a function on pod templates, and what it means over several
    admissions of the same template. */
module Injection {
  import opened Kube

  type Strings = map<string, string>

  /** A pod specification; `extra` stands for all fields the webhook does not look at. */
  datatype Template = Template(
    containers: seq<Container>, initContainers: seq<Container>, volumes: seq<Volume>, extra: string)

  predicate HasLabel(labels: Strings) {
    "netmaker.io/netclient" in labels && labels["netmaker.io/netclient"] == "enabled"
  }

  predicate HasSidecar(cs: seq<Container>) {
    exists i | 0 <= i < |cs| :: cs[i].name == "netclient"
  }

  predicate HasVolume(vs: seq<Volume>, name: string) {
    exists i | 0 <= i < |vs| :: vs[i].name == name
  }

  /** The container the webhook adds. */
  function Sidecar(env: Strings, token: string): Container {
    var server, network := ValueOf(env, "NETCLIENT_SERVER"), ValueOf(env, "NETCLIENT_NETWORK");
    Container(
      "netclient", EnvOr(env, "NETCLIENT_IMAGE", "gravitl/netclient:v1.4.0"),
      [Inline("TOKEN", token), Inline("DAEMON", "on"), Inline("LOG_LEVEL", "info")]
      + (if server != "" then [Inline("SERVER", server)] else [])
      + (if network != "" then [Inline("NETWORK", network)] else []),
      [Mount("etc-netclient", "/etc/netclient"), Mount("log-netclient", "/var/log")], [], [], "netclient-security-and-probe")
  }

  function EtcVolume(claim: string): Volume {
    Volume("etc-netclient", if claim != "" then Claim(claim) else EmptyDir(false))
  }

  function LogVolume(): Volume {
    Volume("log-netclient", EmptyDir(true))
  }

  function AddVolume(vs: seq<Volume>, v: Volume): seq<Volume> {
    if HasVolume(vs, v.name) then vs else vs + [v]
  }

  function Injected(env: Strings, p: Template, token: string, claim: string): Template {
    p.(containers := p.containers + [Sidecar(env, token)],
       volumes := AddVolume(AddVolume(p.volumes, EtcVolume(claim)), LogVolume()))
  }

  /** The container that is added, in the words of the environment: the token always, server and network only
      if they are configured. */
  lemma SidecarIs(env: Strings, token: string)
    ensures
      var c := Sidecar(env, token);
      && c.name == "netclient"
      && c.image == FirstNonEmpty([ValueOf(env, "NETCLIENT_IMAGE"), "gravitl/netclient:v1.4.0"])
      && c.mounts == [Mount("etc-netclient", "/etc/netclient"), Mount("log-netclient", "/var/log")]
      && c.env[..3] == [Inline("TOKEN", token), Inline("DAEMON", "on"), Inline("LOG_LEVEL", "info")]
      && c.env[3..] == (if Gives(env, "NETCLIENT_SERVER") then [Inline("SERVER", env["NETCLIENT_SERVER"])] else [])
                       + if Gives(env, "NETCLIENT_NETWORK") then [Inline("NETWORK", env["NETCLIENT_NETWORK"])] else []
  {
    FirstOfTwo(ValueOf(env, "NETCLIENT_IMAGE"), "gravitl/netclient:v1.4.0");
  }

  /** What injection does to a template: one container behind the others, and each of two volumes behind the
      others unless there is one of its name; the first is the claim if one is given. */
  lemma InjectedIs(env: Strings, p: Template, token: string, claim: string)
    ensures
      var q := Injected(env, p, token, claim);
      var etc := exists i | 0 <= i < |p.volumes| :: p.volumes[i].name == "etc-netclient";
      var log := exists i | 0 <= i < |p.volumes| :: p.volumes[i].name == "log-netclient";
      && q.containers == p.containers + [Sidecar(env, token)]
      && q.volumes == p.volumes
                      + (if etc then [] else [Volume("etc-netclient", if claim != "" then Claim(claim) else EmptyDir(false))])
                      + (if log then [] else [Volume("log-netclient", EmptyDir(true))])
      && q.initContainers == p.initContainers && q.extra == p.extra
  {
    var vs := AddVolume(p.volumes, EtcVolume(claim));
    assert HasVolume(vs, "log-netclient") <==> HasVolume(p.volumes, "log-netclient") by {
      assert forall i | 0 <= i < |p.volumes| :: vs[i] == p.volumes[i];
      if i :| 0 <= i < |vs| && vs[i].name == "log-netclient" {
        assert i < |p.volumes|;
      }
      if i :| 0 <= i < |p.volumes| && p.volumes[i].name == "log-netclient" {
        assert vs[i].name == "log-netclient";
      }
    }
  }

  // ---------- Injection is conservative ----------

  predicate DistinctContainers(cs: seq<Container>) {
    forall i, j | 0 <= i < j < |cs| :: cs[i].name != cs[j].name
  }

  predicate DistinctVolumes(vs: seq<Volume>) {
    forall i, j | 0 <= i < j < |vs| :: vs[i].name != vs[j].name
  }

  lemma AddVolumeKeeps(vs: seq<Volume>, v: Volume)
    ensures vs <= AddVolume(vs, v) && HasVolume(AddVolume(vs, v), v.name)
    ensures forall n :: HasVolume(vs, n) ==> HasVolume(AddVolume(vs, v), n)
    ensures DistinctVolumes(AddVolume(vs, v)) <==> DistinctVolumes(vs)
  {
    var r := AddVolume(vs, v);
    assert r[|r| - 1] == r[|r| - 1];
    forall n | HasVolume(vs, n) ensures HasVolume(r, n) {
      var i :| 0 <= i < |vs| && vs[i].name == n;
      assert r[i].name == n;
    }
    if !HasVolume(vs, v.name) {
      assert r[|vs|].name == v.name;
      if DistinctVolumes(r) {
        forall i, j | 0 <= i < j < |vs| ensures vs[i].name != vs[j].name {
          assert r[i] == vs[i] && r[j] == vs[j];
        }
      }
    }
  }

  /** Original containers and volumes stay in front, everything else stays, and every mount of the new
      container names a volume of the result. */
  lemma InjectionConservative(env: Strings, p: Template, token: string, claim: string)
    ensures
      var q := Injected(env, p, token, claim);
      && p.containers <= q.containers && |q.containers| == |p.containers| + 1
      && p.volumes <= q.volumes && |q.volumes| <= |p.volumes| + 2
      && q.initContainers == p.initContainers && q.extra == p.extra
      && HasSidecar(q.containers)
      && (forall m | m in q.containers[|p.containers|].mounts :: HasVolume(q.volumes, m.volume))
      && (forall i | |p.volumes| <= i < |q.volumes| :: q.volumes[i] == EtcVolume(claim) || q.volumes[i] == LogVolume())
  {
    AddVolumeKeeps(p.volumes, EtcVolume(claim));
    AddVolumeKeeps(AddVolume(p.volumes, EtcVolume(claim)), LogVolume());
    var q := Injected(env, p, token, claim);
    assert q.containers[|p.containers|] == Sidecar(env, token);
  }

  /** Injection keeps container names distinct where it is applied, and volume names always; across
      init containers too, exactly when none of those is called netclient (which it does not check). */
  lemma InjectionKeepsNamesDistinct(env: Strings, p: Template, token: string, claim: string)
    requires !HasSidecar(p.containers)
    ensures
      var q := Injected(env, p, token, claim);
      && (DistinctContainers(q.containers) <==> DistinctContainers(p.containers))
      && (DistinctVolumes(q.volumes) <==> DistinctVolumes(p.volumes))
      && (DistinctContainers(q.initContainers + q.containers)
          <==> DistinctContainers(p.initContainers + p.containers) && !HasSidecar(p.initContainers))
  {
    AddVolumeKeeps(p.volumes, EtcVolume(claim));
    AddVolumeKeeps(AddVolume(p.volumes, EtcVolume(claim)), LogVolume());
    SnocDistinct(p.containers, Sidecar(env, token));
    var all := p.initContainers + p.containers;
    SnocDistinct(all, Sidecar(env, token));
    assert p.initContainers + (p.containers + [Sidecar(env, token)]) == all + [Sidecar(env, token)];
    HasSidecarConcat(p.initContainers, p.containers);
  }

  lemma HasSidecarConcat(a: seq<Container>, b: seq<Container>)
    ensures HasSidecar(a + b) <==> HasSidecar(a) || HasSidecar(b)
  {
    if i :| 0 <= i < |a| && a[i].name == "netclient" {
      assert (a + b)[i] == a[i];
    }
    if i :| 0 <= i < |b| && b[i].name == "netclient" {
      assert (a + b)[|a| + i] == b[i];
    }
  }

  lemma SnocDistinct(cs: seq<Container>, c: Container)
    requires c.name == "netclient"
    ensures DistinctContainers(cs + [c]) <==> DistinctContainers(cs) && !HasSidecar(cs)
  {
    var r := cs + [c];
    if DistinctContainers(r) {
      forall i, j | 0 <= i < j < |cs| ensures cs[i].name != cs[j].name {
        assert r[i] == cs[i] && r[j] == cs[j];
      }
      forall i | 0 <= i < |cs| ensures cs[i].name != "netclient" {
        assert r[i] == cs[i] && r[|cs|] == c;
      }
    }
  }

  // ---------- A sequence of admissions ----------

  /** One admission of a template: whether the object carries the label, and what the webhook would put in. */
  datatype Level = Level(labelled: bool, token: string, claim: string)

  function Admit(env: Strings, p: Template, l: Level): Template {
    if l.labelled && !HasSidecar(p.containers) then Injected(env, p, l.token, l.claim) else p
  }

  /** Deployment, then ReplicaSet, then Pod, with any re-admissions in between. */
  function AdmitAll(env: Strings, p: Template, ls: seq<Level>): Template
    decreases ls
  {
    if ls == [] then p else AdmitAll(env, Admit(env, p, ls[0]), ls[1..])
  }

  function FirstLabelled(ls: seq<Level>): Option<Level> {
    if ls == [] then None else if ls[0].labelled then Some(ls[0]) else FirstLabelled(ls[1..])
  }

  function Sidecars(cs: seq<Container>): nat {
    if cs == [] then 0 else Sidecars(cs[..|cs| - 1]) + if cs[|cs| - 1].name == "netclient" then 1 else 0
  }

  /** Over any sequence of admissions the first labelled one decides alone; a template that already has
      the container, or is never labelled, is left as it is. */
  lemma {:induction false} FirstLabelledDecides(env: Strings, p: Template, ls: seq<Level>)
    ensures AdmitAll(env, p, ls)
         == if HasSidecar(p.containers) then p
            else match FirstLabelled(ls)
                 case None => p
                 case Some(l) => Injected(env, p, l.token, l.claim)
    decreases ls
  {
    if ls != [] {
      if ls[0].labelled {
        InjectionConservative(env, p, ls[0].token, ls[0].claim);
      }
      FirstLabelledDecides(env, Admit(env, p, ls[0]), ls[1..]);
    }
  }

  /** At most one netclient container is ever added, and one is added exactly when some level is
      labelled and none was there. */
  lemma SidecarsOverAdmissions(env: Strings, p: Template, ls: seq<Level>)
    ensures Sidecars(AdmitAll(env, p, ls).containers)
         == Sidecars(p.containers) + if !HasSidecar(p.containers) && FirstLabelled(ls).Some? then 1 else 0
    ensures FirstLabelled(ls).Some? <==> exists i | 0 <= i < |ls| :: ls[i].labelled
  {
    FirstLabelledDecides(env, p, ls);
    FirstLabelledExists(ls);
    if FirstLabelled(ls).Some? {
      var cs := p.containers + [Sidecar(env, FirstLabelled(ls).value.token)];
      assert cs[..|cs| - 1] == p.containers;
    }
  }

  lemma {:induction false} FirstLabelledExists(ls: seq<Level>)
    ensures FirstLabelled(ls).Some? <==> exists i | 0 <= i < |ls| :: ls[i].labelled
  {
    if ls != [] {
      FirstLabelledExists(ls[1..]);
      if i :| 0 <= i < |ls| && ls[i].labelled {
        assert i > 0 ==> ls[1..][i - 1].labelled;
      }
      if FirstLabelled(ls[1..]).Some? {
        var i :| 0 <= i < |ls[1..]| && ls[1..][i].labelled;
        assert ls[i + 1].labelled;
      }
    }
  }

  // ---------- Choosing the claim ----------

  const PVC_KEY := "netmaker.io/pvc-name"

  function PvcName(env: Strings, annotations: Strings, ns: string): string {
    if ValueOf(annotations, PVC_KEY) != "" then annotations[PVC_KEY]
    else if ValueOf(annotations, PVC_KEY + "." + ns) != "" then annotations[PVC_KEY + "." + ns]
    else ValueOf(env, "NETCLIENT_PVC_NAME")
  }

  /** A value after merging: the template's if it has the key at all, else the workload's. */
  function Merged(workload: Strings, template: Strings, key: string): string {
    if key in template then template[key] else ValueOf(workload, key)
  }

  /** The order of precedence is by kind of key first and by level second. */
  lemma PvcPrecedence(env: Strings, workload: Strings, template: Strings, ns: string)
    ensures PvcName(env, workload + template, ns)
         == FirstNonEmpty([Merged(workload, template, "netmaker.io/pvc-name"),
                           Merged(workload, template, "netmaker.io/pvc-name." + ns),
                           ValueOf(env, "NETCLIENT_PVC_NAME")])
    ensures "netmaker.io/pvc-name" !in template && Gives(workload, "netmaker.io/pvc-name") ==>
              PvcName(env, workload + template, ns) == workload["netmaker.io/pvc-name"]
  {
    FirstOfThree(Merged(workload, template, "netmaker.io/pvc-name"), Merged(workload, template, "netmaker.io/pvc-name." + ns),
                 ValueOf(env, "NETCLIENT_PVC_NAME"));
    assert PVC_KEY + "." + ns == "netmaker.io/pvc-name." + ns;
  }

  // ---------- The persistent volume claims ----------

  datatype Pvc = Pvc(size: string, storageClass: string, managed: bool)

  /** A change to the claims: a creation, which the API server refuses if the name is taken, an edit of an
      existing claim, or a deletion. */
  datatype ClaimEvent = Created(key: Key, pvc: Pvc) | Edited(key: Key, pvc: Pvc) | Dropped(key: Key)

  function ClaimStep(claims: map<Key, Pvc>, e: ClaimEvent): map<Key, Pvc> {
    match e
    case Created(k, pvc) => if k in claims then claims else claims[k := pvc]
    case Edited(k, pvc) => if k in claims then claims[k := pvc] else claims
    case Dropped(k) => claims - {k}
  }

  function ClaimsAfter(claims: map<Key, Pvc>, es: seq<ClaimEvent>): map<Key, Pvc> {
    if es == [] then claims else ClaimStep(ClaimsAfter(claims, es[..|es| - 1]), es[|es| - 1])
  }

  lemma {:induction false} ClaimsConcat(claims: map<Key, Pvc>, es: seq<ClaimEvent>, es': seq<ClaimEvent>)
    ensures ClaimsAfter(claims, es + es') == ClaimsAfter(ClaimsAfter(claims, es), es')
  {
    if es' == [] {
      assert es + es' == es;
    } else {
      assert (es + es')[..|es + es'| - 1] == es + es'[..|es'| - 1];
      ClaimsConcat(claims, es, es'[..|es'| - 1]);
    }
  }

  /** None of these events edits or deletes the claim. */
  predicate Spares(es: seq<ClaimEvent>, k: Key) {
    forall e | e in es :: e.Created? || e.key != k
  }

  /** A claim stays exactly as it is until it is edited or deleted, whatever is created. */
  lemma {:induction false} ClaimStays(claims: map<Key, Pvc>, es: seq<ClaimEvent>, k: Key)
    requires k in claims && Spares(es, k)
    ensures k in ClaimsAfter(claims, es) && ClaimsAfter(claims, es)[k] == claims[k]
  {
    if es != [] {
      assert Spares(es[..|es| - 1], k);
      ClaimStays(claims, es[..|es| - 1], k);
      assert es[|es| - 1] in es;
    }
  }

  /** How often creations of `k`, or deletions of it, took effect. */
  function Creations(claims: map<Key, Pvc>, es: seq<ClaimEvent>, k: Key): nat {
    if es == [] then 0
    else Creations(claims, es[..|es| - 1], k)
         + if es[|es| - 1].Created? && es[|es| - 1].key == k && k !in ClaimsAfter(claims, es[..|es| - 1]) then 1 else 0
  }

  function Deletions(claims: map<Key, Pvc>, es: seq<ClaimEvent>, k: Key): nat {
    if es == [] then 0
    else Deletions(claims, es[..|es| - 1], k)
         + if es[|es| - 1] == Dropped(k) && k in ClaimsAfter(claims, es[..|es| - 1]) then 1 else 0
  }

  /** A claim is created at most once more than it is deleted; the books balance exactly. */
  lemma {:induction false} ClaimBalance(claims: map<Key, Pvc>, es: seq<ClaimEvent>, k: Key)
    ensures (if k in claims then 1 else 0) + Creations(claims, es, k)
         == Deletions(claims, es, k) + if k in ClaimsAfter(claims, es) then 1 else 0
  {
    if es != [] {
      ClaimBalance(claims, es[..|es| - 1], k);
    }
  }
}

/** What level-triggered convergence does not give: cases in which what ends up standing is not what a user
    would expect. When exactly they arise is said here for both proxies at once, in `Quiescence` for pods
    that are missing or left over, in `QuietEndpoints` for Endpoints, and in `Traffic` for edits. */
module Limits {
  import opened Kube
  import opened ProxyPod
  import opened Protocol
  import opened Quiescence
  import opened Drain
  import opened Convergence
  import opened Recovery

  lemma PutThenDrain(w: World, k: Key, svc: Service, d: seq<Event>, t: Task)
    requires WellFormed(w) && Drained(w) && t.key == k
    requires DrainRun(d) && Drained(Run(Apply(w, PutService(k, svc)), d))
    ensures ViewOf(Run(Apply(w, PutService(k, svc)), d), t) == Target(w.conf, t, ViewOf(w, t).(svc := Some(svc)))
  {
    var w' := Apply(w, PutService(k, svc));
    CellStep(w, PutService(k, svc), t);
    StaysWellFormed(w, PutService(k, svc));
    DrainedIsSettled(w', d, t);
    ReconcileReachesTarget(w.conf, t, ViewOf(w', t));
  }

  predicate HasPod(w: World, ctl: Ctl, k: Key) {
    PodKey(Task(ctl, k)) in w.pods
  }

  /** "Never both at once" is false. After writing a Service version on a drained cluster and working the
      queues off in any order, both proxies stand exactly if the version asks for both, the ingress proxy
      was there before, and the egress proxy can be made or was there before too. */
  lemma BothProxiesExactly(w: World, k: Key, svc: Service, d: seq<Event>)
    requires WellFormed(w) && Drained(w)
    requires DrainRun(d) && Drained(Run(Apply(w, PutService(k, svc)), d))
    ensures
      var end := Run(Apply(w, PutService(k, svc)), d);
      HasPod(end, Egress, k) && HasPod(end, Ingress, k)
      <==> && Says(svc.annotations, "netmaker.io/egress", "enabled") && Says(svc.annotations, "netmaker.io/ingress", "enabled")
           && HasPod(w, Ingress, k)
           && (Gives(svc.annotations, "netmaker.io/egress-target-ip") || Gives(svc.annotations, "netmaker.io/egress-target-dns")
               || HasPod(w, Egress, k))
  {
    WantedExactly(svc);
    AddrIs(svc);
    PutThenDrain(w, k, svc, d, Task(Egress, k));
    PutThenDrain(w, k, svc, d, Task(Ingress, k));
    var end := Run(Apply(w, PutService(k, svc)), d);
    assert HasPod(end, Egress, k) <==> ViewOf(end, Task(Egress, k)).pod.Some?;
    assert HasPod(end, Ingress, k) <==> ViewOf(end, Task(Ingress, k)).pod.Some?;
  }

  /** It does happen: a Service first switched to ingress and then, with ingress still on, to egress with a
      target keeps both proxies, in every order of the work. */
  lemma BothProxiesStay(w: World, k: Key, first: Service, second: Service, d: seq<Event>, d': seq<Event>)
    requires WellFormed(w) && Drained(w)
    requires IsIngressEnabled(first) && !IsEgressEnabled(first)
    requires IsIngressEnabled(second) && IsEgressEnabled(second) && HasTarget(second)
    requires DrainRun(d) && DrainRun(d')
    requires
      var mid := Run(Apply(w, PutService(k, first)), d);
      Drained(mid) && Drained(Run(Apply(mid, PutService(k, second)), d'))
    ensures
      var mid := Run(Apply(w, PutService(k, first)), d);
      var end := Run(Apply(mid, PutService(k, second)), d');
      HasPod(end, Egress, k) && HasPod(end, Ingress, k)
  {
    var mid := Run(Apply(w, PutService(k, first)), d);
    StaysWellFormed(w, PutService(k, first));
    PutThenDrain(w, k, first, d, Task(Ingress, k));
    assert HasPod(mid, Ingress, k) <==> ViewOf(mid, Task(Ingress, k)).pod.Some?;
    DrainKeepsSettled(Apply(w, PutService(k, first)), d, Task(Ingress, k));
    BothProxiesExactly(mid, k, second, d');
  }

  /** An edit of a Service whose egress pod is running reaches the Endpoints but not the pod: in every
      order of the work, the Endpoints end up with the new ports while the pod keeps the old script. */
  lemma EditReachesOnlyEndpoints(w: World, k: Key, svc: Service, d: seq<Event>)
    requires WellFormed(w) && Drained(w) && IsEgressEnabled(svc) && HasTarget(svc)
    requires HasPod(w, Egress, k) && w.pods[PodKey(Task(Egress, k))].phase == Running
    requires DrainRun(d) && Drained(Run(Apply(w, PutService(k, svc)), d))
    ensures
      var end, pk := Run(Apply(w, PutService(k, svc)), d), PodKey(Task(Egress, k));
      && pk in end.pods && end.pods[pk] == w.pods[pk]
      && k in end.endpoints
      && end.endpoints[k].subsets == [Subset(w.pods[pk].ip, pk, EndpointPorts(svc.ports))]
  {
    var t := Task(Egress, k);
    PutThenDrain(w, k, svc, d, t);
    assert Lookup(Run(Apply(w, PutService(k, svc)), d).pods, PodKey(t)) == Lookup(w.pods, PodKey(t));
  }

  /** What a write of the Service does to its Endpoints, in every order of the work: if the version asks for
      egress with a target and the pod was there and running, they name that pod at its address with the
      ports of the version; in all other cases they are as before. */
  lemma EndpointsAfterWrite(w: World, k: Key, svc: Service, d: seq<Event>)
    requires WellFormed(w) && Drained(w)
    requires DrainRun(d) && Drained(Run(Apply(w, PutService(k, svc)), d))
    ensures
      var end, pk, said := Run(Apply(w, PutService(k, svc)), d), Key(k.ns, k.name + "-egress-proxy"), svc.annotations;
      if Says(said, "netmaker.io/egress", "enabled")
         && (Gives(said, "netmaker.io/egress-target-ip") || Gives(said, "netmaker.io/egress-target-dns"))
         && pk in w.pods && w.pods[pk].phase == Running then
        && k in end.endpoints && |end.endpoints[k].subsets| == 1
        && var s := end.endpoints[k].subsets[0];
        && s.ip == w.pods[pk].ip && s.targetPod == pk && |s.ports| == |svc.ports|
        && forall i | 0 <= i < |s.ports| :: s.ports[i] == EndpointPort(svc.ports[i].name, svc.ports[i].port, svc.ports[i].protocol)
      else Lookup(end.endpoints, k) == Lookup(w.endpoints, k)
  {
    var t := Task(Egress, k);
    PutThenDrain(w, k, svc, d, t);
    WantedExactly(svc);
    AddrIs(svc);
    PodNames(k);
    var end := Run(Apply(w, PutService(k, svc)), d);
    assert Lookup(end.endpoints, k) == ViewOf(end, t).ep;
  }

  /** Switching egress off removes the pod and leaves the Endpoints as they are, in every order of the work:
      if they named the pod, they go on naming it although it is gone. */
  lemma DisablingLeavesEndpoints(w: World, k: Key, svc: Service, d: seq<Event>)
    requires WellFormed(w) && Drained(w) && !IsEgressEnabled(svc)
    requires DrainRun(d) && Drained(Run(Apply(w, PutService(k, svc)), d))
    ensures
      var end := Run(Apply(w, PutService(k, svc)), d);
      !HasPod(end, Egress, k) && Lookup(end.endpoints, k) == Lookup(w.endpoints, k)
  {
    var t := Task(Egress, k);
    var end := Run(Apply(w, PutService(k, svc)), d);
    PutThenDrain(w, k, svc, d, t);
    assert Lookup(end.pods, PodKey(t)) == None && Lookup(end.endpoints, k) == ViewOf(end, t).ep;
  }

  /** With nothing queued, the controllers do nothing, however often they are scheduled. */
  lemma {:induction false} DrainedStays(w: World, d: seq<Event>)
    requires Drained(w) && forall e | e in d :: OwnEvent(e)
    ensures Run(w, d) == w
  {
    if d != [] {
      DrainedStays(w, d[..|d| - 1]);
      assert d[|d| - 1] in d;
    }
  }

  /** An evicted pod is not replaced, and a pod that starts or moves is not followed, by anything the
      controllers ever do on their own: pods are not watched. */
  lemma PodChangesUnnoticed(w: World, e: Event, d: seq<Event>)
    requires Drained(w) && (e.Evict? || e.Kubelet?) && forall x | x in d :: OwnEvent(x)
    ensures
      var end := Run(Apply(w, e), d);
      && Drained(end) && end.endpoints == w.endpoints
      && (e.Evict? ==> e.podKey !in end.pods)
      && (e.Kubelet? && e.podKey in w.pods ==>
            e.podKey in end.pods && end.pods[e.podKey] == w.pods[e.podKey].(phase := e.phase, ip := e.ip))
  {
    DrainedStays(Apply(w, e), d);
  }

  /** So a first egress proxy is never wired up by itself: its pod is made, starts, and the Service still
      has no Endpoints, whatever the controllers do until somebody touches the Service. */
  lemma FirstEndpointsNeverCome(w: World, k: Key, svc: Service, d: seq<Event>, ip: string, d': seq<Event>)
    requires WellFormed(w) && Drained(w) && !HasPod(w, Egress, k) && k !in w.endpoints
    requires IsEgressEnabled(svc) && HasTarget(svc)
    requires DrainRun(d) && Drained(Run(Apply(w, PutService(k, svc)), d)) && forall e | e in d' :: OwnEvent(e)
    ensures
      var pk := PodKey(Task(Egress, k));
      var end := Run(Apply(Run(Apply(w, PutService(k, svc)), d), Kubelet(pk, Running, ip)), d');
      Drained(end) && pk in end.pods && end.pods[pk].phase == Running && k !in end.endpoints
  {
    var t := Task(Egress, k);
    var made := Run(Apply(w, PutService(k, svc)), d);
    PutThenDrain(w, k, svc, d, t);
    assert Lookup(made.pods, PodKey(t)).Some? && Lookup(made.endpoints, k).None?;
    PodChangesUnnoticed(made, Kubelet(PodKey(t), Running, ip), d');
  }

  lemma {:induction false} QuietStays(w: World, d: seq<Event>, t: Task)
    requires WellFormed(w) && Quiet(w, t) && forall e | e in d :: OwnEvent(e)
    ensures WellFormed(Run(w, d)) && CellOf(Run(w, d), t) == CellOf(w, t)
  {
    if d != [] {
      var p, e := d[..|d| - 1], d[|d| - 1];
      QuietStays(w, p, t);
      assert e in d;
      StaysWellFormed(Run(w, p), e);
      CellStep(Run(w, p), e, t);
    }
  }

  /** An operator restart right after a Service is deleted orphans its pods: nothing is queued for them,
      and nothing the controllers do on their own removes them. */
  lemma RestartOrphans(w: World, t: Task, d: seq<Event>)
    requires WellFormed(w) && PodKey(t) in w.pods && forall e | e in d :: OwnEvent(e)
    ensures
      var now := Run(Run(w, [DropService(t.key), Restart]), d);
      Quiet(now, t) && PodKey(t) in now.pods
  {
    var es := [DropService(t.key), Restart];
    var w' := Run(w, es);
    assert es[..1][..0] == [] && es[..1] == [DropService(t.key)];
    assert Run(w, es[..1]) == Apply(w, DropService(t.key));
    Member(w.services - {t.key}, t);
    CellProduct(w, es, t);
    QuietStays(w', d, t);
    assert CellOf(w', t).view.pod.Some? && CellOf(Run(w', d), t) == CellOf(w', t);
  }
}

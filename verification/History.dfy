/** Runs of the cluster: initial states, the notable moments of a run, and "this happened and nothing
    cancelled it since". */
module History {
  import opened Kube
  import opened ProxyPod
  import opened Protocol

  /** The operator has just started on a cluster that holds no proxy pod yet: every Service is queued
      for both controllers and nothing is in progress. */
  ghost predicate Init(w: World) {
    && w.active == map[]
    && w.dirty == TasksOf(w.services)
    && forall t: Task :: PodKey(t) !in w.pods
  }

  /** Moments in the life of a task that the properties speak of. */
  datatype Mark =
    | PodLost        // its pod existed and was evicted behind the operator's back
    | PodLooked      // a reconcile got an answer on whether the pod exists
    | Abandoned      // the operator restarted while the Service was gone and the pod was still there
    | Touched        // the Service was written or deleted, the work queued again, or the pod evicted
    | Approved       // a reconcile read a Service version that calls for the pod
    | Cleaned        // a reconcile that found the pod unwanted returned without error
    | Made           // a creation of the pod took effect
    | Gone           // a deletion of the pod took effect, or it was evicted
    | Wired          // the Endpoints were made to name the pod, by a reconcile or by somebody else
    | Unwired        // somebody else replaced or removed the Endpoints so that they do not name it

  ghost predicate At(t: Task, c: Cell, e: Event, m: Mark) {
    match m
    case PodLost => e == Evict(PodKey(t)) && c.view.pod.Some?
    case PodLooked => e == Call(t, Ok) && c.pc.Some? && c.pc.value.PodGet?
    case Abandoned => e.Restart? && c.view.svc.None? && c.view.pod.Some?
    case Touched => (e.PutService? && e.key == t.key) || e == DropService(t.key) || e == Requeue(t) || e == Evict(PodKey(t))
    case Approved => e == Call(t, Ok) && c.pc == Some(Fetch) && Decide(t.ctl, c.view.svc).Ensure?
    case Cleaned => e == Call(t, Ok) && ((c.pc == Some(CleanupGet) && c.view.pod.None?)
                                         || (c.pc == Some(CleanupDelete) && c.view.pod.Some?))
    case Made => e.Call? && e.t == t && e.out != Lost && c.pc.Some? && c.pc.value.PodCreate?
    case Wired =>
      WritesEndpoints(t, c, e) || (e.EditEndpoints? && e.key == t.key && NamesPod(e.ep, PodKey(t)))
    case Unwired => e.EditEndpoints? && e.key == t.key && !NamesPod(e.ep, PodKey(t))
    case Gone => e == Evict(PodKey(t)) || (e.Call? && e.t == t && e.out != Lost && c.pc == Some(CleanupDelete))
  }

  /** A write of the Endpoints takes effect. */
  predicate WritesEndpoints(t: Task, c: Cell, e: Event) {
    e.Call? && e.t == t && e.out != Lost && c.pc.Some?
    && ((c.pc.value.EndpointsCreate? && c.view.ep.None?)
        || (c.pc.value.EndpointsUpdate? && c.view.ep.Some? && c.view.ep.value.rev == c.pc.value.seen.rev))
  }

  predicate NamesPod(ep: Option<Endpoints>, pk: Key) {
    ep.Some? && exists s | s in ep.value.subsets :: s.targetPod == pk
  }

  ghost predicate AtStep(w: World, es: seq<Event>, i: nat, t: Task, m: Mark)
    requires i < |es|
  {
    At(t, CellOf(Run(w, es[..i]), t), es[i], m)
  }

  /** `m` happened at no step after the `i`-th. */
  ghost predicate NotAfter(w: World, es: seq<Event>, i: nat, t: Task, m: Mark) {
    forall j | i < j < |es| :: !AtStep(w, es, j, t, m)
  }

  /** `m` happened at step `i` and `cancel` at no later step of the run. */
  ghost predicate HoldsFrom(w: World, es: seq<Event>, i: nat, t: Task, m: Mark, cancel: Mark)
    requires i < |es|
  {
    AtStep(w, es, i, t, m) && NotAfter(w, es, i, t, cancel)
  }

  ghost predicate Since(w: World, es: seq<Event>, t: Task, m: Mark, cancel: Mark) {
    exists i: nat | i < |es| :: HoldsFrom(w, es, i, t, m, cancel)
  }

  lemma AtStepSnoc(w: World, es: seq<Event>, e: Event, i: nat, t: Task, m: Mark)
    requires i <= |es|
    ensures AtStep(w, es + [e], i, t, m) <==> if i < |es| then AtStep(w, es, i, t, m) else At(t, CellOf(Run(w, es), t), e, m)
  {
    assert (es + [e])[..i] == es[..i];
    if i == |es| {
      assert es[..i] == es;
    }
  }

  lemma NotAfterSnoc(w: World, es: seq<Event>, e: Event, i: nat, t: Task, m: Mark)
    requires i < |es|
    ensures NotAfter(w, es + [e], i, t, m) <==> NotAfter(w, es, i, t, m) && !At(t, CellOf(Run(w, es), t), e, m)
  {
    var es' := es + [e];
    AtStepSnoc(w, es, e, |es|, t, m);
    forall j: nat | j < |es| ensures AtStep(w, es', j, t, m) <==> AtStep(w, es, j, t, m) {
      AtStepSnoc(w, es, e, j, t, m);
    }
    if NotAfter(w, es', i, t, m) {
      assert !AtStep(w, es', |es|, t, m);
    }
  }

  lemma HoldsFromSnoc(w: World, es: seq<Event>, e: Event, i: nat, t: Task, m: Mark, cancel: Mark)
    requires i < |es|
    ensures HoldsFrom(w, es + [e], i, t, m, cancel)
       <==> HoldsFrom(w, es, i, t, m, cancel) && !At(t, CellOf(Run(w, es), t), e, cancel)
  {
    AtStepSnoc(w, es, e, i, t, m);
    NotAfterSnoc(w, es, e, i, t, cancel);
  }

  lemma SinceLast(w: World, es: seq<Event>, e: Event, t: Task, m: Mark, cancel: Mark)
    ensures HoldsFrom(w, es + [e], |es|, t, m, cancel) <==> At(t, CellOf(Run(w, es), t), e, m)
  {
    AtStepSnoc(w, es, e, |es|, t, m);
  }

  lemma SinceForth(w: World, es: seq<Event>, e: Event, t: Task, m: Mark, cancel: Mark)
    requires Since(w, es + [e], t, m, cancel)
    ensures
      var c := CellOf(Run(w, es), t);
      At(t, c, e, m) || (Since(w, es, t, m, cancel) && !At(t, c, e, cancel))
  {
    var i: nat :| i < |es + [e]| && HoldsFrom(w, es + [e], i, t, m, cancel);
    if i < |es| {
      HoldsFromSnoc(w, es, e, i, t, m, cancel);
    } else {
      SinceLast(w, es, e, t, m, cancel);
    }
  }

  lemma SinceBack(w: World, es: seq<Event>, e: Event, t: Task, m: Mark, cancel: Mark)
    requires Since(w, es, t, m, cancel) && !At(t, CellOf(Run(w, es), t), e, cancel)
    ensures Since(w, es + [e], t, m, cancel)
  {
    var i: nat :| i < |es| && HoldsFrom(w, es, i, t, m, cancel);
    HoldsFromSnoc(w, es, e, i, t, m, cancel);
  }

  lemma SinceSnoc(w: World, es: seq<Event>, e: Event, t: Task, m: Mark, cancel: Mark)
    ensures
      var c := CellOf(Run(w, es), t);
      Since(w, es + [e], t, m, cancel) <==> At(t, c, e, m) || (Since(w, es, t, m, cancel) && !At(t, c, e, cancel))
  {
    SinceLast(w, es, e, t, m, cancel);
    if Since(w, es + [e], t, m, cancel) {
      SinceForth(w, es, e, t, m, cancel);
    } else if Since(w, es, t, m, cancel) && !At(t, CellOf(Run(w, es), t), e, cancel) {
      SinceBack(w, es, e, t, m, cancel);
    }
  }

  // ---------- Past states ----------

  /** The Service had this version after the first `i` steps of the run. */
  ghost predicate ServiceAt(w: World, es: seq<Event>, i: nat, k: Key, svc: Service) {
    i <= |es| && Lookup(Run(w, es[..i]).services, k) == Some(svc)
  }

  ghost function SecretsAt(w: World, es: seq<Event>, i: nat): Secrets
    requires i <= |es|
  {
    Run(w, es[..i]).secrets
  }

  lemma PastStays(w: World, es: seq<Event>, e: Event, i: nat)
    requires i <= |es|
    ensures SecretsAt(w, es + [e], i) == SecretsAt(w, es, i)
    ensures forall k, svc :: ServiceAt(w, es + [e], i, k, svc) <==> ServiceAt(w, es, i, k, svc)
  {
    assert (es + [e])[..i] == es[..i];
  }

  lemma NowIsPast(w: World, es: seq<Event>)
    ensures forall k | k in Run(w, es).services :: ServiceAt(w, es, |es|, k, Run(w, es).services[k])
    ensures SecretsAt(w, es, |es|) == Run(w, es).secrets
  {
    assert es[..|es|] == es;
  }
}

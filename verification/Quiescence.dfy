/** What holds of the proxy pods once the work queues are quiet, over all interleavings of both
    controllers, user edits, evictions, operator restarts and API failures. */
module Quiescence {
  import opened Kube
  import opened ProxyPod
  import opened Protocol
  import opened History

  /** The Service version a reconcile works on, once it has decided that the pod is wanted. */
  function Snapshot(pc: Pc): Option<Service> {
    match pc
    case Fetch => None
    case CleanupGet => None
    case CleanupDelete => None
    case PodGet(svc) => Some(svc)
    case TokenOwn(svc) => Some(svc)
    case TokenOperator(svc) => Some(svc)
    case EnvOwn(svc, _) => Some(svc)
    case PodCreate(svc, _) => Some(svc)
    case EndpointsPodGet(svc) => Some(svc)
    case EndpointsGet(svc, _) => Some(svc)
    case EndpointsCreate(svc, _) => Some(svc)
    case EndpointsUpdate(svc, _, _) => Some(svc)
  }

  predicate Creating(pc: Pc) {
    pc.TokenOwn? || pc.TokenOperator? || pc.EnvOwn? || pc.PodCreate?
  }

  predicate Cleaning(pc: Pc) {
    pc.CleanupGet? || pc.CleanupDelete?
  }

  /** What a reconcile in progress knows is still true, or else its task is queued again. */
  predicate Fresh(t: Task, c: Cell) {
    match c.pc
    case None => !c.dirty && c.view.svc.Some? && Decide(t.ctl, c.view.svc).Remove? ==> c.view.pod.None?
    case Some(pc) =>
      && (Cleaning(pc) ==> c.dirty || Decide(t.ctl, c.view.svc).Remove?)
      && (Snapshot(pc).Some? ==> Decide(t.ctl, Snapshot(pc)).Ensure? && (c.dirty || c.view.svc == Snapshot(pc)))
      && (Creating(pc) ==> c.view.pod.None?)
  }

  lemma CreationKeepsFresh(conf: Config, t: Task, c: Cell, out: Outcome)
    requires Fresh(t, c) && c.pc.Some? && Creating(c.pc.value)
    ensures Fresh(t, CellCall(conf, t, c, out))
  {
  }

  lemma EndpointsKeepFresh(conf: Config, t: Task, c: Cell, out: Outcome)
    requires Fresh(t, c) && c.pc.Some? && OnEndpoints(c.pc.value)
    ensures Fresh(t, CellCall(conf, t, c, out))
  {
  }

  lemma DecisionKeepsFresh(conf: Config, t: Task, c: Cell, out: Outcome)
    requires Fresh(t, c) && c.pc.Some? && !Creating(c.pc.value) && !OnEndpoints(c.pc.value)
    ensures Fresh(t, CellCall(conf, t, c, out))
  {
  }

  lemma CallKeepsFresh(conf: Config, t: Task, c: Cell, out: Outcome)
    requires Fresh(t, c)
    ensures Fresh(t, CellCall(conf, t, c, out))
  {
    if c.pc.Some? {
      if Creating(c.pc.value) {
        CreationKeepsFresh(conf, t, c, out);
      } else if OnEndpoints(c.pc.value) {
        EndpointsKeepFresh(conf, t, c, out);
      } else {
        DecisionKeepsFresh(conf, t, c, out);
      }
    }
  }

  lemma FreshStep(conf: Config, t: Task, c: Cell, e: Event)
    requires Fresh(t, c)
    ensures Fresh(t, CellApply(conf, t, c, e))
  {
    if e.Call? && e.t == t {
      CallKeepsFresh(conf, t, c, e.out);
    }
  }

  /** The pod is missing although the controller believes it made sure of it. */
  predicate Missing(t: Task, c: Cell) {
    && c.view.pod.None?
    && match c.pc
       case None => !c.dirty && Decide(t.ctl, c.view.svc).Ensure?
       case Some(pc) => OnEndpoints(pc)
  }

  /** `lost` tells whether the pod was evicted and no reconcile has looked for it since. */
  predicate LossInv(t: Task, c: Cell, lost: bool) {
    && Fresh(t, c)
    && (Missing(t, c) ==> lost)
    && (lost ==> c.view.pod.None? && (c.pc.Some? ==> !Creating(c.pc.value)))
  }

  lemma CreationKeepsLossInv(conf: Config, t: Task, c: Cell, out: Outcome, lost: bool)
    requires LossInv(t, c, lost) && c.pc.Some? && Creating(c.pc.value)
    ensures LossInv(t, CellCall(conf, t, c, out), lost)
  {
    CallKeepsFresh(conf, t, c, out);
  }

  lemma EndpointsKeepLossInv(conf: Config, t: Task, c: Cell, out: Outcome, lost: bool)
    requires LossInv(t, c, lost) && c.pc.Some? && OnEndpoints(c.pc.value)
    ensures LossInv(t, CellCall(conf, t, c, out), lost)
  {
    CallKeepsFresh(conf, t, c, out);
  }

  lemma CallKeepsLossInv(conf: Config, t: Task, c: Cell, out: Outcome, lost: bool)
    requires LossInv(t, c, lost)
    ensures
      var looked := out == Ok && c.pc.Some? && c.pc.value.PodGet?;
      LossInv(t, CellCall(conf, t, c, out), lost && !looked)
  {
    if c.pc.Some? && Creating(c.pc.value) {
      CreationKeepsLossInv(conf, t, c, out, lost);
    } else if c.pc.Some? && OnEndpoints(c.pc.value) {
      EndpointsKeepLossInv(conf, t, c, out, lost);
    } else {
      CallKeepsFresh(conf, t, c, out);
    }
  }

  lemma LossInvStep(conf: Config, t: Task, c: Cell, e: Event, lost: bool)
    requires LossInv(t, c, lost)
    ensures LossInv(t, CellApply(conf, t, c, e), At(t, c, e, PodLost) || (lost && !At(t, c, e, PodLooked)))
  {
    if e.Call? && e.t == t {
      CallKeepsLossInv(conf, t, c, e.out, lost);
    } else {
      FreshStep(conf, t, c, e);
    }
  }

  /** `orphan` tells whether the operator restarted while only the pod was left, and nothing
      concerning them happened since. */
  predicate OrphanInv(t: Task, c: Cell, orphan: bool) {
    && Fresh(t, c)
    && (c.pc.None? && !c.dirty && c.view.svc.None? && c.view.pod.Some? ==> orphan)
    && (orphan ==> c.pc.None? && !c.dirty && c.view.svc.None? && c.view.pod.Some?)
  }

  lemma CallKeepsOrphanInv(conf: Config, t: Task, c: Cell, out: Outcome, orphan: bool)
    requires OrphanInv(t, c, orphan)
    ensures OrphanInv(t, CellCall(conf, t, c, out), orphan)
  {
    CallKeepsFresh(conf, t, c, out);
  }

  lemma OrphanInvStep(conf: Config, t: Task, c: Cell, e: Event, orphan: bool)
    requires OrphanInv(t, c, orphan)
    ensures OrphanInv(t, CellApply(conf, t, c, e), At(t, c, e, Abandoned) || (orphan && !At(t, c, e, Touched)))
  {
    if e.Call? && e.t == t {
      CallKeepsOrphanInv(conf, t, c, e.out, orphan);
    } else {
      FreshStep(conf, t, c, e);
    }
  }

  lemma PresenceStep(conf: Config, t: Task, c: Cell, e: Event)
    ensures CellApply(conf, t, c, e).view.pod.Some? <==> At(t, c, e, Made) || (c.view.pod.Some? && !At(t, c, e, Gone))
  {
  }

  /** At any moment a proxy pod is there exactly if it was created and neither deleted nor evicted since. */
  lemma {:induction false} PodPresence(w: World, es: seq<Event>, t: Task)
    requires Init(w)
    ensures WellFormed(Run(w, es))
    ensures PodKey(t) in Run(w, es).pods <==> Since(w, es, t, Made, Gone)
  {
    if es != [] {
      var p, e := es[..|es| - 1], es[|es| - 1];
      assert es == p + [e];
      PodPresence(w, p, t);
      StaysWellFormed(Run(w, p), e);
      CellStep(Run(w, p), e, t);
      SinceSnoc(w, p, e, t, Made, Gone);
      PresenceStep(Run(w, p).conf, t, CellOf(Run(w, p), t), e);
      assert PodKey(t) in Run(w, es).pods <==> CellOf(Run(w, es), t).view.pod.Some?;
      assert PodKey(t) in Run(w, p).pods <==> CellOf(Run(w, p), t).view.pod.Some?;
    }
  }

  lemma {:induction false} RunInvariants(w: World, es: seq<Event>, t: Task)
    requires Init(w)
    ensures WellFormed(Run(w, es))
    ensures LossInv(t, CellOf(Run(w, es), t), Since(w, es, t, PodLost, PodLooked))
    ensures OrphanInv(t, CellOf(Run(w, es), t), Since(w, es, t, Abandoned, Touched))
  {
    if es == [] {
      Member(w.services, t);
    } else {
      var p, e := es[..|es| - 1], es[|es| - 1];
      assert es == p + [e];
      RunInvariants(w, p, t);
      var c := CellOf(Run(w, p), t);
      StaysWellFormed(Run(w, p), e);
      CellStep(Run(w, p), e, t);
      SinceSnoc(w, p, e, t, PodLost, PodLooked);
      SinceSnoc(w, p, e, t, Abandoned, Touched);
      LossInvStep(Run(w, p).conf, t, c, e, Since(w, p, t, PodLost, PodLooked));
      OrphanInvStep(Run(w, p).conf, t, c, e, Since(w, p, t, Abandoned, Touched));
    }
  }

  /** A work item that is neither queued nor in progress. */
  predicate Quiet(w: World, t: Task) {
    t !in w.dirty && t !in w.active
  }

  /** Quiescence. A quiet task whose Service exists and does not want the pod has no pod. If the Service
      is gone, a pod is left exactly when the operator restarted after the deletion, found nothing to
      queue, and nothing has touched them since. If the Service wants the pod, the pod is there
      exactly unless it was evicted and no reconcile has looked for it since. If the controller skips the
      Service, a pod made for an earlier version stays until it is evicted. */
  lemma QuietPods(w: World, es: seq<Event>, t: Task)
    requires Init(w) && Quiet(Run(w, es), t)
    ensures
      var now := Run(w, es);
      var hasPod := PodKey(t) in now.pods;
      match Decide(t.ctl, Lookup(now.services, t.key))
      case Remove => hasPod <==> t.key !in now.services && Since(w, es, t, Abandoned, Touched)
      case Ensure(_) => !hasPod <==> Since(w, es, t, PodLost, PodLooked)
      case Skip => hasPod <==> Since(w, es, t, Made, Gone)
  {
    RunInvariants(w, es, t);
    PodPresence(w, es, t);
  }

  lemma NeverSince(w: World, es: seq<Event>, t: Task, m: Mark, cancel: Mark)
    requires forall i: nat | i < |es| :: !AtStep(w, es, i, t, m)
    ensures !Since(w, es, t, m, cancel)
  {
  }

  /** The same in the words of the annotations, for runs in which the operator is not restarted and the
      pods concerned are not evicted. */
  lemma QuietServices(w: World, es: seq<Event>, k: Key)
    requires Init(w) && Restart !in es
    requires Evict(PodKey(Task(Egress, k))) !in es && Evict(PodKey(Task(Ingress, k))) !in es
    ensures
      var now := Run(w, es);
      var egress, ingress := Task(Egress, k), Task(Ingress, k);
      var gone := k !in now.services;
      && (Quiet(now, egress) && (gone || !Says(now.services[k].annotations, "netmaker.io/egress", "enabled"))
          ==> PodKey(egress) !in now.pods)
      && (Quiet(now, egress) && !gone && Says(now.services[k].annotations, "netmaker.io/egress", "enabled")
          && (Gives(now.services[k].annotations, "netmaker.io/egress-target-ip")
              || Gives(now.services[k].annotations, "netmaker.io/egress-target-dns"))
          ==> PodKey(egress) in now.pods)
      && (Quiet(now, ingress) && (gone || !Says(now.services[k].annotations, "netmaker.io/ingress", "enabled"))
          ==> PodKey(ingress) !in now.pods)
      && (Quiet(now, ingress) && !gone && Says(now.services[k].annotations, "netmaker.io/ingress", "enabled")
          && !Says(now.services[k].annotations, "netmaker.io/egress", "enabled")
          ==> PodKey(ingress) in now.pods)
  {
    var now := Run(w, es);
    if k in now.services {
      WantedExactly(now.services[k]);
      AddrIs(now.services[k]);
    }
    forall t: Task | t.key == k && Quiet(now, t)
      ensures !Since(w, es, t, Abandoned, Touched) && !Since(w, es, t, PodLost, PodLooked)
      ensures Decide(t.ctl, Lookup(now.services, k)).Remove? ==> PodKey(t) !in now.pods
      ensures Decide(t.ctl, Lookup(now.services, k)).Ensure? ==> PodKey(t) in now.pods
    {
      assert t == Task(Egress, k) || t == Task(Ingress, k) by { match t.ctl case Egress => case Ingress => }
      NeverSince(w, es, t, Abandoned, Touched);
      NeverSince(w, es, t, PodLost, PodLooked);
      QuietPods(w, es, t);
    }
  }
}

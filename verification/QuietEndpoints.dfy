/** What the Endpoints of an egress Service hold: what the last look at the proxy pod called for, no matter
    what became of the pod, or of the Service, since. */
module QuietEndpoints {
  import opened Kube
  import opened ProxyPod
  import opened Protocol
  import opened History
  import opened Quiescence
  import opened Drain
  import opened Recovery

  /** The last time a reconcile of the work item got an answer on whether the proxy pod runs: the Service
      version it worked on, the pod it found, the Endpoints there were, and whether its write of them has
      taken effect. `edited` tells whether somebody else has edited the Endpoints since, or ever, if there
      was no look yet. */
  datatype Look =
    | Never(edited: bool)
    | Look(svc: Service, pod: Option<Pod>, ep: Option<Endpoints>, written: bool, edited: bool)

  predicate Looks(t: Task, c: Cell, e: Event) {
    e == Call(t, Ok) && c.pc.Some? && c.pc.value.EndpointsPodGet?
  }

  function LookAfter(t: Task, c: Cell, e: Event, l: Look): Look {
    if Looks(t, c, e) then Look(c.pc.value.svc, c.view.pod, c.view.ep, false, false)
    else if e.EditEndpoints? && e.key == t.key then l.(edited := true)
    else if WritesEndpoints(t, c, e) && l.Look? then l.(written := true)
    else l
  }

  function LastLook(w: World, es: seq<Event>, t: Task): Look {
    if es == [] then Never(false)
    else LookAfter(t, CellOf(Run(w, es[..|es| - 1]), t), es[|es| - 1], LastLook(w, es[..|es| - 1], t))
  }

  /** The Endpoints that the look called for. */
  function Followed(t: Task, l: Look): Option<Endpoints>
    requires l.Look?
  {
    if SeenRunning(l.pod) then Pointed(l.ep, ProxySubsets(t, l.svc, l.pod.value)) else l.ep
  }

  /** The Endpoints there are if nobody else edits them: those of the start until the first look, then
      those of the look until its write, then those it called for. */
  function Trail(t: Task, start: Option<Endpoints>, l: Look): Option<Endpoints> {
    match l
    case Never(_) => start
    case Look(_, _, ep, written, _) => if written then Followed(t, l) else ep
  }

  /** A reconcile between its look and its write. */
  predicate Following(l: Look, svc: Service, pod: Pod) {
    l.Look? && l.svc == svc && l.pod == Some(pod) && pod.phase == Running && !l.written
  }

  predicate LookInv(t: Task, c: Cell, start: Option<Endpoints>, l: Look) {
    && Fresh(t, c)
    && (!l.edited ==> c.view.ep == Trail(t, start, l))
    && (l.Look? && l.written ==> SeenRunning(l.pod))
    && match c.pc
       case None =>
         (match Decide(t.ctl, c.view.svc)
          case Ensure(svc) => !c.dirty ==> l.Look? && l.svc == svc && (SeenRunning(l.pod) ==> l.written)
          case _ => true)
       case Some(EndpointsGet(svc, pod)) => Following(l, svc, pod)
       case Some(EndpointsCreate(svc, pod)) => Following(l, svc, pod)
       case Some(EndpointsUpdate(svc, pod, _)) => Following(l, svc, pod)
       case _ => true
  }

  lemma EndpointsKeepLookInv(conf: Config, t: Task, c: Cell, out: Outcome, start: Option<Endpoints>, l: Look)
    requires t.ctl.Egress? && LookInv(t, c, start, l) && c.pc.Some? && OnEndpoints(c.pc.value)
    ensures LookInv(t, CellCall(conf, t, c, out), start, LookAfter(t, c, Call(t, out), l))
  {
    CallKeepsFresh(conf, t, c, out);
  }

  lemma CreationKeepsLookInv(conf: Config, t: Task, c: Cell, out: Outcome, start: Option<Endpoints>, l: Look)
    requires t.ctl.Egress? && LookInv(t, c, start, l) && c.pc.Some? && Creating(c.pc.value)
    ensures LookInv(t, CellCall(conf, t, c, out), start, l)
  {
    CallKeepsFresh(conf, t, c, out);
  }

  lemma DecisionKeepsLookInv(conf: Config, t: Task, c: Cell, out: Outcome, start: Option<Endpoints>, l: Look)
    requires t.ctl.Egress? && LookInv(t, c, start, l) && c.pc.Some? && !Creating(c.pc.value) && !OnEndpoints(c.pc.value)
    ensures LookInv(t, CellCall(conf, t, c, out), start, l)
  {
    CallKeepsFresh(conf, t, c, out);
  }

  lemma LookInvStep(conf: Config, t: Task, c: Cell, e: Event, start: Option<Endpoints>, l: Look)
    requires t.ctl.Egress? && LookInv(t, c, start, l)
    ensures LookInv(t, CellApply(conf, t, c, e), start, LookAfter(t, c, e, l))
  {
    if e.Call? && e.t == t && c.pc.Some? {
      if OnEndpoints(c.pc.value) {
        EndpointsKeepLookInv(conf, t, c, e.out, start, l);
      } else if Creating(c.pc.value) {
        CreationKeepsLookInv(conf, t, c, e.out, start, l);
      } else {
        DecisionKeepsLookInv(conf, t, c, e.out, start, l);
      }
    } else {
      FreshStep(conf, t, c, e);
    }
  }

  lemma {:induction false} LookRun(w: World, es: seq<Event>, t: Task)
    requires Init(w) && t.ctl.Egress?
    ensures WellFormed(Run(w, es))
    ensures LookInv(t, CellOf(Run(w, es), t), Lookup(w.endpoints, t.key), LastLook(w, es, t))
  {
    if es == [] {
      Member(w.services, t);
    } else {
      var p, e := es[..|es| - 1], es[|es| - 1];
      LookRun(w, p, t);
      StaysWellFormed(Run(w, p), e);
      CellStep(Run(w, p), e, t);
      LookInvStep(Run(w, p).conf, t, CellOf(Run(w, p), t), e, Lookup(w.endpoints, t.key), LastLook(w, p, t));
    }
  }

  /** At every moment of every run, whatever became of the Service and its pod: Endpoints that nobody else
      has edited since the last look are those of the look or, once its write took effect, what the look
      called for; and those of the start if there was no look. Nothing else ever changes them: neither
      disabling the Service nor deleting it, nor the clean-up of the pod. */
  lemma EndpointsTrail(w: World, es: seq<Event>, k: Key)
    requires Init(w) && !LastLook(w, es, Task(Egress, k)).edited
    ensures
      var t := Task(Egress, k);
      Lookup(Run(w, es).endpoints, k) == Trail(t, Lookup(w.endpoints, k), LastLook(w, es, t))
  {
    LookRun(w, es, Task(Egress, k));
  }

  /** Quiescence of the Endpoints, over all interleavings. When the egress work item of a Service that
      wants a proxy is quiet, there was a last look at the pod, on the Service version there is now; and
      unless somebody edited the Endpoints since, they are exactly what that look called for. */
  lemma QuietEndpoints(w: World, es: seq<Event>, k: Key)
    requires Init(w) && Quiet(Run(w, es), Task(Egress, k))
    requires Decide(Egress, Lookup(Run(w, es).services, k)).Ensure?
    ensures
      var t, l := Task(Egress, k), LastLook(w, es, Task(Egress, k));
      && l.Look? && Lookup(Run(w, es).services, k) == Some(l.svc)
      && (!l.edited ==> Lookup(Run(w, es).endpoints, k) == Followed(t, l))
  {
    LookRun(w, es, Task(Egress, k));
  }

  /** So the Endpoints of a Service with a running proxy pod are right, when quiet and not edited, exactly
      if that look found the pod running under the address it has now, or found it not running with
      Endpoints that happened to be right already. A pod that starts or changes its address after the look
      is not followed. */
  lemma EndpointsRightExactly(w: World, es: seq<Event>, k: Key)
    requires Init(w) && Quiet(Run(w, es), Task(Egress, k)) && !LastLook(w, es, Task(Egress, k)).edited
    requires Decide(Egress, Lookup(Run(w, es).services, k)).Ensure?
    requires SeenRunning(Lookup(Run(w, es).pods, PodKey(Task(Egress, k))))
    ensures
      var t, l := Task(Egress, k), LastLook(w, es, Task(Egress, k));
      var now := ViewOf(Run(w, es), t);
      && l.Look?
      && (PointsTo(now.ep, WantedSubsets(t, now).value)
          <==> if SeenRunning(l.pod) then l.pod.value.ip == now.pod.value.ip
               else PointsTo(l.ep, WantedSubsets(t, now).value))
  {
    QuietEndpoints(w, es, k);
    var t, l := Task(Egress, k), LastLook(w, es, Task(Egress, k));
    var now := ViewOf(Run(w, es), t);
    if SeenRunning(l.pod) {
      var seen, wanted := ProxySubsets(t, l.svc, l.pod.value), ProxySubsets(t, l.svc, now.pod.value);
      assert PointsTo(now.ep, seen);
      assert seen[0].ip == l.pod.value.ip && wanted[0].ip == now.pod.value.ip;
    }
  }

  // ---------- Endpoints of a pod that is gone ----------

  lemma CallKeepsEndpoints(conf: Config, t: Task, c: Cell, out: Outcome)
    requires !WritesEndpoints(t, c, Call(t, out))
    ensures CellCall(conf, t, c, out).view.ep == c.view.ep
  {
  }

  lemma WiredStep(conf: Config, t: Task, c: Cell, e: Event)
    requires t.ctl.Egress?
    ensures NamesPod(CellApply(conf, t, c, e).view.ep, PodKey(t))
       <==> At(t, c, e, Wired) || (NamesPod(c.view.ep, PodKey(t)) && !At(t, c, e, Unwired))
  {
    if e.Call? && e.t == t {
      if WritesEndpoints(t, c, e) {
        WrittenNamesPod(conf, t, c, e.out);
      } else {
        CallKeepsEndpoints(conf, t, c, e.out);
      }
    }
  }

  lemma WrittenNamesPod(conf: Config, t: Task, c: Cell, out: Outcome)
    requires WritesEndpoints(t, c, Call(t, out))
    ensures NamesPod(CellCall(conf, t, c, out).view.ep, PodKey(t))
  {
    var pc := c.pc.value;
    var subsets := ProxySubsets(t, pc.svc, pc.pod);
    var ep := CellCall(conf, t, c, out).view.ep;
    assert ep.Some? && ep.value.subsets == subsets;
    assert subsets[0] in ep.value.subsets;
  }

  /** The Endpoints name the pod from the start and nobody has changed that. */
  ghost predicate NamedAllAlong(w: World, es: seq<Event>, t: Task) {
    NamesPod(Lookup(w.endpoints, t.key), PodKey(t)) && forall i: nat | i < |es| :: !AtStep(w, es, i, t, Unwired)
  }

  lemma NamedSnoc(w: World, es: seq<Event>, e: Event, t: Task)
    ensures NamedAllAlong(w, es + [e], t) <==> NamedAllAlong(w, es, t) && !At(t, CellOf(Run(w, es), t), e, Unwired)
  {
    forall i: nat | i < |es| ensures AtStep(w, es + [e], i, t, Unwired) <==> AtStep(w, es, i, t, Unwired) {
      AtStepSnoc(w, es, e, i, t, Unwired);
    }
    AtStepSnoc(w, es, e, |es|, t, Unwired);
  }

  lemma {:induction false} WiredRun(w: World, es: seq<Event>, t: Task)
    requires WellFormed(w) && t.ctl.Egress?
    ensures WellFormed(Run(w, es))
    ensures NamesPod(Lookup(Run(w, es).endpoints, t.key), PodKey(t))
       <==> Since(w, es, t, Wired, Unwired) || NamedAllAlong(w, es, t)
  {
    if es != [] {
      var p, e := es[..|es| - 1], es[|es| - 1];
      assert es == p + [e];
      WiredRun(w, p, t);
      StaysWellFormed(Run(w, p), e);
      CellStep(Run(w, p), e, t);
      SinceSnoc(w, p, e, t, Wired, Unwired);
      NamedSnoc(w, p, e, t);
      WiredStep(Run(w, p).conf, t, CellOf(Run(w, p), t), e);
      assert Lookup(Run(w, es).endpoints, t.key) == CellOf(Run(w, es), t).view.ep;
      assert Lookup(Run(w, p).endpoints, t.key) == CellOf(Run(w, p), t).view.ep;
    }
  }

  /** Dangling Endpoints. When the egress work item of a Service that is gone or disabled is quiet, its pod
      is gone, unless a restart orphaned it; and the Endpoints still name that pod exactly if they were
      ever made to, or did from the start, and nobody else has edited them away since. */
  lemma EndpointsDangleExactly(w: World, es: seq<Event>, k: Key)
    requires Init(w) && Quiet(Run(w, es), Task(Egress, k))
    requires Decide(Egress, Lookup(Run(w, es).services, k)).Remove?
    ensures
      var t, now := Task(Egress, k), Run(w, es);
      && (PodKey(t) !in now.pods <==> k in now.services || !Since(w, es, t, Abandoned, Touched))
      && (NamesPod(Lookup(now.endpoints, k), PodKey(t)) <==> Since(w, es, t, Wired, Unwired) || NamedAllAlong(w, es, t))
  {
    QuietPods(w, es, Task(Egress, k));
    WiredRun(w, es, Task(Egress, k));
  }
}

/** Where a proxy pod comes from: one past version of its Service, read by a reconcile that approved
    of it, and frozen from then on. */
module PodOrigin {
  import opened Kube
  import opened ProxyPod
  import opened Protocol
  import opened History
  import opened Quiescence

  // ---------- Approval ----------

  /** A pod, or a reconcile on its way to one, stems from an approval no clean-up has answered. */
  predicate ApprovalInv(t: Task, c: Cell, approved: bool) {
    (c.view.pod.Some? || (c.pc.Some? && Snapshot(c.pc.value).Some?)) ==> approved
  }

  lemma CallKeepsApproval(conf: Config, t: Task, c: Cell, out: Outcome, approved: bool)
    requires ApprovalInv(t, c, approved)
    ensures
      var c' := CellCall(conf, t, c, out);
      ApprovalInv(t, c', At(t, c, Call(t, out), Approved) || (approved && !At(t, c, Call(t, out), Cleaned)))
  {
  }

  lemma ApprovalStep(conf: Config, t: Task, c: Cell, e: Event, approved: bool)
    requires ApprovalInv(t, c, approved)
    ensures ApprovalInv(t, CellApply(conf, t, c, e), At(t, c, e, Approved) || (approved && !At(t, c, e, Cleaned)))
  {
    if e.Call? && e.t == t {
      CallKeepsApproval(conf, t, c, e.out, approved);
    }
  }

  lemma {:induction false} ApprovedRun(w: World, es: seq<Event>, t: Task)
    requires Init(w)
    ensures WellFormed(Run(w, es))
    ensures ApprovalInv(t, CellOf(Run(w, es), t), Since(w, es, t, Approved, Cleaned))
  {
    if es != [] {
      var p, e := es[..|es| - 1], es[|es| - 1];
      assert es == p + [e];
      ApprovedRun(w, p, t);
      StaysWellFormed(Run(w, p), e);
      CellStep(Run(w, p), e, t);
      SinceSnoc(w, p, e, t, Approved, Cleaned);
      ApprovalStep(Run(w, p).conf, t, CellOf(Run(w, p), t), e, Since(w, p, t, Approved, Cleaned));
    }
  }

  /** An ingress pod exists only if some reconcile read a Service version with ingress on and egress
      off, and no reconcile that later found ingress off or the Service gone has completed. In
      particular both proxies of a Service coexist only after such a reading. */
  lemma IngressPodWasApproved(w: World, es: seq<Event>, k: Key)
    requires Init(w) && PodKey(Task(Ingress, k)) in Run(w, es).pods
    ensures Since(w, es, Task(Ingress, k), Approved, Cleaned)
    ensures exists i: nat, svc | i < |es| ::
              && Lookup(Run(w, es[..i]).services, k) == Some(svc)
              && IsIngressEnabled(svc) && !IsEgressEnabled(svc)
              && es[i] == Call(Task(Ingress, k), Ok)
  {
    var t := Task(Ingress, k);
    ApprovedRun(w, es, t);
    var i: nat :| i < |es| && HoldsFrom(w, es, i, t, Approved, Cleaned);
    assert AtStep(w, es, i, t, Approved);
    assert Lookup(Run(w, es[..i]).services, k) == Some(Run(w, es[..i]).services[k]);
  }

  // ---------- The content of a pod ----------

  /** Where in a run a pod's content was read: the Service, then the secret of its own namespace, then of
      the operator's namespace, then of its own again; and which of the three secret reads succeeded. */
  datatype Reads = Reads(service: nat, own: nat, op: nat, again: nat, ownOk: bool, opOk: bool, againOk: bool)

  /** The reads happened in this order. */
  predicate InOrder(es: seq<Event>, r: Reads) {
    r.service <= r.own <= r.op <= r.again <= |es|
  }

  ghost predicate MissRead(w: World, es: seq<Event>, t: Task, svc: Service, r: Reads) {
    && InOrder(es, r) && ServiceAt(w, es, r.service, t.key, svc)
    && ReadSecret(w.conf, svc, SecretsAt(w, es, r.own), t.key.ns, r.ownOk).None?
  }

  ghost predicate TokenRead(w: World, es: seq<Event>, t: Task, svc: Service, token: string, r: Reads) {
    && InOrder(es, r) && ServiceAt(w, es, r.service, t.key, svc)
    && token == OrEmpty(OrElse(ReadSecret(w.conf, svc, SecretsAt(w, es, r.own), t.key.ns, r.ownOk),
                               ReadSecret(w.conf, svc, SecretsAt(w, es, r.op), OperatorNamespace(w.conf), r.opOk)))
  }

  ghost predicate EnvRead(w: World, es: seq<Event>, t: Task, svc: Service, netEnv: seq<EnvVar>, r: Reads) {
    && InOrder(es, r) && ServiceAt(w, es, r.service, t.key, svc)
    && netEnv == EnvFromReads(w.conf, t.key, svc, SecretsAt(w, es, r.own), r.ownOk, SecretsAt(w, es, r.op), r.opOk,
                              SecretsAt(w, es, r.again), r.againOk)
  }

  /** The pod is the one built from this single Service version and these reads. */
  ghost predicate BuiltFrom(w: World, es: seq<Event>, t: Task, svc: Service, r: Reads, spec: PodSpec) {
    && Decide(t.ctl, Some(svc)).Ensure?
    && exists netEnv :: EnvRead(w, es, t, svc, netEnv, r) && spec == BuildPod(w.conf, t.ctl, t.key, svc, netEnv)
  }

  ghost predicate Original(w: World, es: seq<Event>, t: Task, spec: PodSpec) {
    exists svc, r :: BuiltFrom(w, es, t, svc, r, spec)
  }

  ghost predicate OriginPc(w: World, es: seq<Event>, t: Task, pc: Pc) {
    && (Snapshot(pc).Some? ==> Decide(t.ctl, Snapshot(pc)).Ensure?
                               && exists i: nat :: ServiceAt(w, es, i, t.key, Snapshot(pc).value))
    && match pc
       case TokenOperator(svc) => exists r :: MissRead(w, es, t, svc, r)
       case EnvOwn(svc, token) => exists r :: TokenRead(w, es, t, svc, token, r)
       case PodCreate(svc, netEnv) => exists r :: EnvRead(w, es, t, svc, netEnv, r)
       case _ => true
  }

  ghost predicate OriginInv(w: World, es: seq<Event>, t: Task, c: Cell) {
    && (c.view.pod.Some? ==> Original(w, es, t, c.view.pod.value.spec))
    && (c.pc.Some? ==> OriginPc(w, es, t, c.pc.value))
  }

  lemma ReadsStay(w: World, es: seq<Event>, e: Event, t: Task, svc: Service, r: Reads)
    requires InOrder(es, r)
    ensures MissRead(w, es, t, svc, r) ==> MissRead(w, es + [e], t, svc, r)
    ensures forall token :: TokenRead(w, es, t, svc, token, r) ==> TokenRead(w, es + [e], t, svc, token, r)
    ensures forall netEnv :: EnvRead(w, es, t, svc, netEnv, r) ==> EnvRead(w, es + [e], t, svc, netEnv, r)
  {
    PastStays(w, es, e, r.service);
    PastStays(w, es, e, r.own);
    PastStays(w, es, e, r.op);
    PastStays(w, es, e, r.again);
  }

  lemma PcOriginStays(w: World, es: seq<Event>, e: Event, t: Task, pc: Pc)
    requires OriginPc(w, es, t, pc)
    ensures OriginPc(w, es + [e], t, pc)
  {
    if Snapshot(pc).Some? {
      var i: nat :| ServiceAt(w, es, i, t.key, Snapshot(pc).value);
      PastStays(w, es, e, i);
      assert ServiceAt(w, es + [e], i, t.key, Snapshot(pc).value);
    }
    match pc
    case TokenOperator(svc) =>
      var r :| MissRead(w, es, t, svc, r);
      ReadsStay(w, es, e, t, svc, r);
    case EnvOwn(svc, token) =>
      var r :| TokenRead(w, es, t, svc, token, r);
      ReadsStay(w, es, e, t, svc, r);
    case PodCreate(svc, netEnv) =>
      var r :| EnvRead(w, es, t, svc, netEnv, r);
      ReadsStay(w, es, e, t, svc, r);
    case _ =>
  }

  lemma PodOriginStays(w: World, es: seq<Event>, e: Event, t: Task, spec: PodSpec)
    requires Original(w, es, t, spec)
    ensures Original(w, es + [e], t, spec)
  {
    var svc, r :| BuiltFrom(w, es, t, svc, r, spec);
    var netEnv :| EnvRead(w, es, t, svc, netEnv, r) && spec == BuildPod(w.conf, t.ctl, t.key, svc, netEnv);
    ReadsStay(w, es, e, t, svc, r);
    assert EnvRead(w, es + [e], t, svc, netEnv, r);
    assert BuiltFrom(w, es + [e], t, svc, r, spec);
  }

  lemma OriginStays(w: World, es: seq<Event>, e: Event, t: Task, c: Cell)
    requires OriginInv(w, es, t, c)
    ensures OriginInv(w, es + [e], t, c)
  {
    if c.view.pod.Some? {
      PodOriginStays(w, es, e, t, c.view.pod.value.spec);
    }
    if c.pc.Some? {
      PcOriginStays(w, es, e, t, c.pc.value);
    }
  }

  /** A reaction keeps the origins: the pod it leaves is the old one or one built from a single version,
      and the reconcile goes on with values that come from the past. */
  ghost predicate OriginReaction(w: World, es: seq<Event>, t: Task, v: View, r: Reaction) {
    && (r.view.pod == v.pod || r.view.pod.None? || Original(w, es, t, r.view.pod.value.spec))
    && (r.next.Goto? ==> OriginPc(w, es, t, r.next.pc))
  }

  /** The view a call is made on is that of the present state. */
  ghost predicate Present(w: World, es: seq<Event>, t: Task, v: View) {
    && v.secrets == SecretsAt(w, es, |es|)
    && (v.svc.Some? ==> ServiceAt(w, es, |es|, t.key, v.svc.value))
  }

  /** The calls that create nothing keep or remove the pod and only pass the snapshot on. */
  lemma PassingReaction(conf: Config, t: Task, v: View, pc: Pc, out: Outcome)
    requires !Creating(pc)
    ensures
      var r := React(conf, t, v, pc, out);
      && (r.view.pod == v.pod || r.view.pod.None?)
      && (r.next.Goto? ==>
            var pc' := r.next.pc;
            && !pc'.TokenOperator? && !pc'.EnvOwn? && !pc'.PodCreate?
            && (Snapshot(pc') == None || Snapshot(pc') == Snapshot(pc)
                || (Snapshot(pc') == v.svc && Decide(t.ctl, v.svc).Ensure?)))
  {
  }

  lemma CreatingReaction(conf: Config, t: Task, v: View, svc: Service, netEnv: seq<EnvVar>, out: Outcome)
    ensures
      var r := React(conf, t, v, PodCreate(svc, netEnv), out);
      && (r.view.pod == v.pod || r.view.pod == Some(NewPod(conf, t, svc, netEnv)))
      && (r.next.Goto? ==> r.next.pc == EndpointsPodGet(svc))
  {
  }

  lemma OwnRead(w: World, es: seq<Event>, t: Task, v: View, svc: Service, ok: bool)
    requires Present(w, es, t, v) && OriginPc(w, es, t, TokenOwn(svc))
    ensures match ReadSecret(w.conf, svc, v.secrets, t.key.ns, ok)
            case Some(token) => OriginPc(w, es, t, EnvOwn(svc, token))
            case None => OriginPc(w, es, t, TokenOperator(svc))
  {
    var i: nat :| ServiceAt(w, es, i, t.key, svc);
    var r := Reads(i, |es|, |es|, |es|, ok, false, false);
    match ReadSecret(w.conf, svc, v.secrets, t.key.ns, ok)
    case Some(token) => assert TokenRead(w, es, t, svc, token, r);
    case None => assert MissRead(w, es, t, svc, r);
  }

  lemma OperatorRead(w: World, es: seq<Event>, t: Task, v: View, svc: Service, ok: bool)
    requires Present(w, es, t, v) && OriginPc(w, es, t, TokenOperator(svc))
    ensures OriginPc(w, es, t, EnvOwn(svc, OrEmpty(ReadSecret(w.conf, svc, v.secrets, OperatorNamespace(w.conf), ok))))
  {
    var r :| MissRead(w, es, t, svc, r);
    MissThenToken(w, es, t, svc, r, ok);
  }

  lemma TokenThenEnv(w: World, es: seq<Event>, t: Task, svc: Service, token: string, r: Reads, ok: bool)
    requires TokenRead(w, es, t, svc, token, r)
    ensures
      var found := ReadSecret(w.conf, svc, SecretsAt(w, es, |es|), t.key.ns, ok).Some?;
      EnvRead(w, es, t, svc, NetclientEnv(w.conf, svc, found, token), r.(again := |es|, againOk := ok))
  {
  }

  lemma MissThenToken(w: World, es: seq<Event>, t: Task, svc: Service, r: Reads, ok: bool)
    requires MissRead(w, es, t, svc, r)
    ensures TokenRead(w, es, t, svc, OrEmpty(ReadSecret(w.conf, svc, SecretsAt(w, es, |es|), OperatorNamespace(w.conf), ok)),
                      r.(op := |es|, again := |es|, opOk := ok))
  {
  }

  lemma SecondOwnRead(w: World, es: seq<Event>, t: Task, v: View, svc: Service, token: string, ok: bool)
    requires Present(w, es, t, v) && OriginPc(w, es, t, EnvOwn(svc, token))
    ensures OriginPc(w, es, t, PodCreate(svc, NetclientEnv(w.conf, svc, ReadSecret(w.conf, svc, v.secrets, t.key.ns, ok).Some?, token)))
  {
    var r :| TokenRead(w, es, t, svc, token, r);
    TokenThenEnv(w, es, t, svc, token, r, ok);
  }

  lemma ReadOrigin(w: World, es: seq<Event>, t: Task, v: View, pc: Pc, out: Outcome)
    requires OriginPc(w, es, t, pc) && Present(w, es, t, v) && (pc.TokenOwn? || pc.TokenOperator? || pc.EnvOwn?)
    ensures OriginReaction(w, es, t, v, React(w.conf, t, v, pc, out))
  {
    match pc
    case TokenOwn(svc) => OwnRead(w, es, t, v, svc, out == Ok);
    case TokenOperator(svc) => OperatorRead(w, es, t, v, svc, out == Ok);
    case EnvOwn(svc, token) => SecondOwnRead(w, es, t, v, svc, token, out == Ok);
  }

  lemma CreatedOrigin(w: World, es: seq<Event>, t: Task, svc: Service, netEnv: seq<EnvVar>)
    requires OriginPc(w, es, t, PodCreate(svc, netEnv))
    ensures Original(w, es, t, NewPod(w.conf, t, svc, netEnv).spec)
  {
    var r :| EnvRead(w, es, t, svc, netEnv, r);
    assert BuiltFrom(w, es, t, svc, r, BuildPod(w.conf, t.ctl, t.key, svc, netEnv));
  }

  lemma PassedOn(w: World, es: seq<Event>, t: Task, svc: Service, netEnv: seq<EnvVar>)
    requires OriginPc(w, es, t, PodCreate(svc, netEnv))
    ensures OriginPc(w, es, t, EndpointsPodGet(svc))
  {
  }

  lemma Creation(w: World, es: seq<Event>, t: Task, v: View, svc: Service, netEnv: seq<EnvVar>, out: Outcome)
    requires OriginPc(w, es, t, PodCreate(svc, netEnv))
    ensures OriginReaction(w, es, t, v, React(w.conf, t, v, PodCreate(svc, netEnv), out))
  {
    CreatingReaction(w.conf, t, v, svc, netEnv, out);
    CreatedOrigin(w, es, t, svc, netEnv);
    PassedOn(w, es, t, svc, netEnv);
    var pod := NewPod(w.conf, t, svc, netEnv);
    var r := React(w.conf, t, v, PodCreate(svc, netEnv), out);
    if r.view.pod == Some(pod) {
      assert r.view.pod.value == pod;
    }
  }

  lemma CallOrigin(w: World, es: seq<Event>, t: Task, v: View, pc: Pc, out: Outcome)
    requires OriginPc(w, es, t, pc) && Present(w, es, t, v)
    ensures OriginReaction(w, es, t, v, React(w.conf, t, v, pc, out))
  {
    match pc
    case PodCreate(svc, netEnv) => Creation(w, es, t, v, svc, netEnv, out);
    case TokenOwn(_) => ReadOrigin(w, es, t, v, pc, out);
    case TokenOperator(_) => ReadOrigin(w, es, t, v, pc, out);
    case EnvOwn(_, _) => ReadOrigin(w, es, t, v, pc, out);
    case _ => PassingReaction(w.conf, t, v, pc, out);
  }

  lemma OriginStep(w: World, es: seq<Event>, e: Event, t: Task, c: Cell)
    requires OriginInv(w, es, t, c) && Present(w, es, t, c.view)
    ensures OriginInv(w, es, t, CellApply(w.conf, t, c, e))
  {
    if e.Call? && e.t == t && c.pc.Some? {
      CallOrigin(w, es, t, c.view, c.pc.value, e.out);
    }
  }

  lemma {:induction false} OriginRun(w: World, es: seq<Event>, t: Task)
    requires Init(w)
    ensures WellFormed(Run(w, es)) && Run(w, es).conf == w.conf
    ensures OriginInv(w, es, t, CellOf(Run(w, es), t))
  {
    if es != [] {
      var p, e := es[..|es| - 1], es[|es| - 1];
      assert es == p + [e];
      OriginRun(w, p, t);
      StaysWellFormed(Run(w, p), e);
      CellStep(Run(w, p), e, t);
      NowIsPast(w, p);
      OriginStep(w, p, e, t, CellOf(Run(w, p), t));
      OriginStays(w, p, e, t, CellApply(w.conf, t, CellOf(Run(w, p), t), e));
    }
  }

  /** In every reachable state each proxy pod is exactly the one its controller builds from a single
      past version of the Service that called for it. The token environment is what the three reads of the
      look-up gave, each of the secrets there were at its moment, in the order of the code: the Service
      first, then the own, the operator's and again the own namespace. */
  lemma PodFromOneVersion(w: World, es: seq<Event>, t: Task) returns (svc: Service, r: Reads)
    requires Init(w) && PodKey(t) in Run(w, es).pods
    ensures InOrder(es, r) && ServiceAt(w, es, r.service, t.key, svc) && Decide(t.ctl, Some(svc)).Ensure?
    ensures Run(w, es).pods[PodKey(t)].spec
         == BuildPod(w.conf, t.ctl, t.key, svc,
                     EnvFromReads(w.conf, t.key, svc, SecretsAt(w, es, r.own), r.ownOk, SecretsAt(w, es, r.op), r.opOk,
                                  SecretsAt(w, es, r.again), r.againOk))
  {
    OriginRun(w, es, t);
    svc, r :| BuiltFrom(w, es, t, svc, r, Run(w, es).pods[PodKey(t)].spec);
  }

  lemma BuiltPodHasOneToken(conf: Config, t: Task, svc: Service, found: bool, token: string, secrets: Secrets)
    ensures
      var spec := BuildPod(conf, t.ctl, t.key, svc, NetclientEnv(conf, svc, found, token));
      spec.containers != [] && |Resolutions(spec.containers[0].env, "TOKEN", secrets, t.key.ns)| == 1
  {
    var netEnv := NetclientEnv(conf, svc, found, token);
    assert BuildPod(conf, t.ctl, t.key, svc, netEnv).containers[0].env == netEnv;
    ResolutionsOfNetclientEnv(conf, svc, found, token, secrets, t.key.ns);
  }

  /** In every reachable state the netclient container of a proxy pod has exactly one TOKEN variable,
      whatever happened to the secrets and to the reads of them. */
  lemma PodHasOneToken(w: World, es: seq<Event>, t: Task, secrets: Secrets)
    requires Init(w) && PodKey(t) in Run(w, es).pods
    ensures
      var spec := Run(w, es).pods[PodKey(t)].spec;
      spec.containers != [] && |Resolutions(spec.containers[0].env, "TOKEN", secrets, t.key.ns)| == 1
  {
    var svc, r := PodFromOneVersion(w, es, t);
    var first := ReadSecret(w.conf, svc, SecretsAt(w, es, r.own), t.key.ns, r.ownOk);
    var op := ReadSecret(w.conf, svc, SecretsAt(w, es, r.op), OperatorNamespace(w.conf), r.opOk);
    var found := ReadSecret(w.conf, svc, SecretsAt(w, es, r.again), t.key.ns, r.againOk).Some?;
    BuiltPodHasOneToken(w.conf, t, svc, found, OrEmpty(OrElse(first, op)), secrets);
  }

  // ---------- Frozen until deleted ----------

  /** No call rewrites a pod that exists: it stays or goes. */
  lemma CallKeepsPod(conf: Config, t: Task, v: View, pc: Pc, out: Outcome)
    requires v.pod.Some?
    ensures React(conf, t, v, pc, out).view.pod == v.pod || React(conf, t, v, pc, out).view.pod.None?
  {
  }

  lemma CallKeepsSpec(w: World, u: Task, out: Outcome, pk: Key)
    requires pk in w.pods && pk in Apply(w, Call(u, out)).pods && u in w.active
    ensures Apply(w, Call(u, out)).pods[pk].spec == w.pods[pk].spec
  {
    var r := React(w.conf, u, ViewOf(w, u), w.active[u], out);
    assert Apply(w, Call(u, out)).pods == Store(w.pods, PodKey(u), r.view.pod);
    if pk == PodKey(u) {
      CallKeepsPod(w.conf, u, ViewOf(w, u), w.active[u], out);
    }
  }

  lemma SpecStep(w: World, e: Event, pk: Key)
    requires pk in w.pods && pk in Apply(w, e).pods
    ensures Apply(w, e).pods[pk].spec == w.pods[pk].spec
  {
    if e.Call? && e.t in w.active {
      CallKeepsSpec(w, e.t, e.out, pk);
    }
  }

  /** As long as a pod is there at every moment, its specification never changes. */
  lemma {:induction false} PodFrozen(w: World, es: seq<Event>, pk: Key)
    requires forall i: nat | i <= |es| :: pk in Run(w, es[..i]).pods
    ensures pk in w.pods && pk in Run(w, es).pods && w.pods[pk].spec == Run(w, es).pods[pk].spec
  {
    assert es[..0] == [] && Run(w, []) == w;
    assert es[..|es|] == es;
    if es != [] {
      var p := es[..|es| - 1];
      forall i: nat | i <= |p| ensures pk in Run(w, p[..i]).pods {
        assert p[..i] == es[..i];
      }
      PodFrozen(w, p, pk);
      SpecStep(Run(w, p), es[|es| - 1], pk);
    }
  }
}

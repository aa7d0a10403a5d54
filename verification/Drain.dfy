/** One work item worked off alone: the calls a reconcile has left, taken in order, against a reference
    result that has no calls in it. */
module Drain {
  import opened Kube
  import opened ProxyPod
  import opened Protocol
  import opened Quiescence

  // ---------- One cell, left alone ----------

  predicate Idle(c: Cell) {
    !c.dirty && c.pc.None?
  }

  /** The write this reconcile is heading for cannot be refused by the store as it is. */
  predicate Unobstructed(v: View, pc: Pc) {
    && (pc.CleanupDelete? ==> v.pod.Some?)
    && (Creating(pc) ==> v.pod.None?)
    && (pc.EndpointsCreate? ==> v.ep.None?)
    && (pc.EndpointsUpdate? ==> v.ep.Some? && v.ep.value.rev == pc.seen.rev)
  }

  function CallsLeft(pc: Pc): nat {
    match pc
    case Fetch => 9
    case PodGet(_) => 8
    case TokenOwn(_) => 7
    case TokenOperator(_) => 6
    case EnvOwn(_, _) => 5
    case PodCreate(_, _) => 4
    case EndpointsPodGet(_) => 3
    case EndpointsGet(_, _) => 2
    case EndpointsCreate(_, _) => 1
    case EndpointsUpdate(_, _, _) => 1
    case CleanupGet => 2
    case CleanupDelete => 1
  }

  /** A bound on the steps left: ten for a queued task, and for a reconcile in progress its calls, plus
      another ten when it is bound to be refused and queued again. */
  function Potential(c: Cell): nat {
    (if c.dirty then 10 else 0)
    + match c.pc
      case None => 0
      case Some(pc) => CallsLeft(pc) + if Unobstructed(c.view, pc) then 0 else 10
  }

  /** The one step a cell can take when every call succeeds. */
  function Advance(conf: Config, t: Task, c: Cell): Cell {
    if c.pc.Some? then CellCall(conf, t, c, Ok)
    else if c.dirty then Cell(c.view, false, Some(Fetch))
    else c
  }

  lemma CreationDescends(conf: Config, t: Task, c: Cell)
    requires c.pc.Some? && (Creating(c.pc.value) || OnEndpoints(c.pc.value))
    ensures Potential(CellCall(conf, t, c, Ok)) < Potential(c)
  {
  }

  lemma AdvanceDescends(conf: Config, t: Task, c: Cell)
    requires !Idle(c)
    ensures Potential(Advance(conf, t, c)) < Potential(c)
  {
    if c.pc.Some? && (Creating(c.pc.value) || OnEndpoints(c.pc.value)) {
      CreationDescends(conf, t, c);
    }
  }

  /** The cell after all its own work is done. */
  function Settle(conf: Config, t: Task, c: Cell): Cell
    decreases Potential(c)
  {
    if Idle(c) then c else AdvanceDescends(conf, t, c); Settle(conf, t, Advance(conf, t, c))
  }

  // ---------- What a reconcile is meant to leave ----------

  /** The pod one undisturbed reconcile makes for a Service version. */
  function PodFor(conf: Config, t: Task, svc: Service, secrets: Secrets): Pod {
    NewPod(conf, t, svc, EnvFromReads(conf, t.key, svc, secrets, true, secrets, true, secrets, true))
  }

  /** The Endpoints after a write that the store does not refuse. */
  function Pointed(ep: Option<Endpoints>, subsets: seq<Subset>): Option<Endpoints> {
    match ep
    case None => Some(Endpoints(subsets, 0))
    case Some(e) => Some(Updated(e, subsets))
  }

  predicate SeenRunning(pod: Option<Pod>) {
    pod.Some? && pod.value.phase == Running
  }

  /** The subsets that the Service as it is now wants for its pod as it is now. */
  function WantedSubsets(t: Task, v: View): Option<seq<Subset>> {
    match Decide(t.ctl, v.svc)
    case Ensure(svc) =>
      if t.ctl.Egress? && SeenRunning(v.pod) then Some(ProxySubsets(t, svc, v.pod.value)) else None
    case _ => None
  }

  /** The reference: the view one undisturbed reconcile is to leave, without any calls in it. */
  function Target(conf: Config, t: Task, v: View): View {
    match Decide(t.ctl, v.svc)
    case Remove => v.(pod := None)
    case Skip => v
    case Ensure(svc) =>
      if v.pod.None? then v.(pod := Some(PodFor(conf, t, svc, v.secrets)))
      else match WantedSubsets(t, v)
        case None => v
        case Some(subsets) => v.(ep := Pointed(v.ep, subsets))
  }

  lemma TargetIdempotent(conf: Config, t: Task, v: View)
    ensures Target(conf, t, Target(conf, t, v)) == Target(conf, t, v)
  {
  }

  // ---------- What a reconcile in progress is heading for ----------

  predicate ReadsSecret(pc: Pc) {
    pc.TokenOwn? || pc.TokenOperator? || pc.EnvOwn?
  }

  /** The write a reconcile is heading for: none, one the store will refuse, or one of three. */
  datatype Write =
    | Nothing
    | Refused
    | Deletion
    | Creation(pod: Pod)
    | Pointing(subsets: seq<Subset>)

  function EndpointsAhead(t: Task, v: View, svc: Service): Write {
    if SeenRunning(v.pod) then Pointing(ProxySubsets(t, svc, v.pod.value)) else Nothing
  }

  function CreationAhead(conf: Config, t: Task, v: View, svc: Service, netEnv: seq<EnvVar>): Write {
    if v.pod.Some? then Refused else Creation(NewPod(conf, t, svc, netEnv))
  }

  function EnsureAhead(conf: Config, t: Task, v: View, svc: Service): Write {
    if v.pod.None? then Creation(PodFor(conf, t, svc, v.secrets))
    else if t.ctl.Egress? then EndpointsAhead(t, v, svc)
    else Nothing
  }

  function CleanupAhead(v: View): Write {
    if v.pod.Some? then Deletion else Nothing
  }

  /** What the rest of the reconcile writes if the store stays as it is and no call fails. */
  function Ahead(conf: Config, t: Task, v: View, pc: Pc): Write {
    match pc
    case Fetch =>
      (match Decide(t.ctl, v.svc)
       case Remove => CleanupAhead(v)
       case Skip => Nothing
       case Ensure(svc) => EnsureAhead(conf, t, v, svc))
    case CleanupGet => CleanupAhead(v)
    case CleanupDelete => if v.pod.Some? then Deletion else Refused
    case PodGet(svc) => EnsureAhead(conf, t, v, svc)
    case TokenOwn(svc) =>
      CreationAhead(conf, t, v, svc, EnvFromReads(conf, t.key, svc, v.secrets, true, v.secrets, true, v.secrets, true))
    case TokenOperator(svc) =>
      CreationAhead(conf, t, v, svc, EnvFromReads(conf, t.key, svc, v.secrets, false, v.secrets, true, v.secrets, true))
    case EnvOwn(svc, token) =>
      CreationAhead(conf, t, v, svc, NetclientEnv(conf, svc, SecretValue(conf, svc, v.secrets, t.key.ns).Some?, token))
    case PodCreate(svc, netEnv) => CreationAhead(conf, t, v, svc, netEnv)
    case EndpointsPodGet(svc) => EndpointsAhead(t, v, svc)
    case EndpointsGet(svc, pod) => Pointing(ProxySubsets(t, svc, pod))
    case EndpointsCreate(svc, pod) => if v.ep.Some? then Refused else Pointing(ProxySubsets(t, svc, pod))
    case EndpointsUpdate(svc, pod, seen) =>
      if v.ep.None? || v.ep.value.rev != seen.rev then Refused else Pointing(ProxySubsets(t, svc, pod))
  }

  function Written(v: View, write: Write): View {
    match write
    case Nothing => v
    case Refused => v
    case Deletion => v.(pod := None)
    case Creation(pod) => v.(pod := Some(pod))
    case Pointing(subsets) => v.(ep := Pointed(v.ep, subsets))
  }

  /** Where a cell ends when no call fails: first the write ahead, then, if the work item is queued or the
      write was refused, what a reconcile makes of that. */
  function Goal(conf: Config, t: Task, c: Cell): View {
    match c.pc
    case None => if c.dirty then Target(conf, t, c.view) else c.view
    case Some(pc) =>
      var write := Ahead(conf, t, c.view, pc);
      var v := Written(c.view, write);
      if c.dirty || write.Refused? then Target(conf, t, v) else v
  }

  lemma FetchGoal(conf: Config, t: Task, c: Cell)
    requires c.pc == Some(Fetch)
    ensures Goal(conf, t, c) == Target(conf, t, c.view)
  {
    TargetIdempotent(conf, t, c.view);
  }

  lemma FetchKeepsGoal(conf: Config, t: Task, c: Cell)
    requires c.pc == Some(Fetch)
    ensures Goal(conf, t, CellCall(conf, t, c, Ok)) == Goal(conf, t, c)
  {
  }

  lemma OwnReadKeepsGoal(conf: Config, t: Task, v: View, dirty: bool, svc: Service)
    ensures
      var c := Cell(v, dirty, Some(TokenOwn(svc)));
      Goal(conf, t, CellCall(conf, t, c, Ok)) == Goal(conf, t, c)
  {
  }

  lemma OperatorReadKeepsGoal(conf: Config, t: Task, v: View, dirty: bool, svc: Service)
    ensures
      var c := Cell(v, dirty, Some(TokenOperator(svc)));
      Goal(conf, t, CellCall(conf, t, c, Ok)) == Goal(conf, t, c)
  {
  }

  lemma EnvReadKeepsGoal(conf: Config, t: Task, v: View, dirty: bool, svc: Service, token: string)
    ensures
      var c := Cell(v, dirty, Some(EnvOwn(svc, token)));
      Goal(conf, t, CellCall(conf, t, c, Ok)) == Goal(conf, t, c)
  {
  }

  lemma ReadsKeepGoal(conf: Config, t: Task, c: Cell)
    requires c.pc.Some? && ReadsSecret(c.pc.value)
    ensures Goal(conf, t, CellCall(conf, t, c, Ok)) == Goal(conf, t, c)
  {
    match c.pc.value
    case TokenOwn(svc) => OwnReadKeepsGoal(conf, t, c.view, c.dirty, svc);
    case TokenOperator(svc) => OperatorReadKeepsGoal(conf, t, c.view, c.dirty, svc);
    case EnvOwn(svc, token) => EnvReadKeepsGoal(conf, t, c.view, c.dirty, svc, token);
  }

  lemma CreationKeepsGoal(conf: Config, t: Task, c: Cell)
    requires c.pc.Some? && c.pc.value.PodCreate?
    ensures Goal(conf, t, CellCall(conf, t, c, Ok)) == Goal(conf, t, c)
  {
  }

  lemma EndpointsKeepGoal(conf: Config, t: Task, c: Cell)
    requires c.pc.Some? && OnEndpoints(c.pc.value)
    ensures Goal(conf, t, CellCall(conf, t, c, Ok)) == Goal(conf, t, c)
  {
  }

  lemma CleanupKeepsGoal(conf: Config, t: Task, c: Cell)
    requires c.pc.Some? && Cleaning(c.pc.value)
    ensures Goal(conf, t, CellCall(conf, t, c, Ok)) == Goal(conf, t, c)
  {
  }

  lemma PodGetKeepsGoal(conf: Config, t: Task, c: Cell)
    requires c.pc.Some? && c.pc.value.PodGet?
    ensures Goal(conf, t, CellCall(conf, t, c, Ok)) == Goal(conf, t, c)
  {
  }

  lemma AdvanceKeepsGoal(conf: Config, t: Task, c: Cell)
    ensures Goal(conf, t, Advance(conf, t, c)) == Goal(conf, t, c)
  {
    if c.pc.Some? {
      var pc := c.pc.value;
      if pc.Fetch? {
        FetchKeepsGoal(conf, t, c);
      } else if ReadsSecret(pc) {
        ReadsKeepGoal(conf, t, c);
      } else if pc.PodCreate? {
        CreationKeepsGoal(conf, t, c);
      } else if OnEndpoints(pc) {
        EndpointsKeepGoal(conf, t, c);
      } else if Cleaning(pc) {
        CleanupKeepsGoal(conf, t, c);
      } else {
        PodGetKeepsGoal(conf, t, c);
      }
    } else if c.dirty {
      FetchGoal(conf, t, Advance(conf, t, c));
    }
  }

  /** The reconcile code refines the reference: worked off alone, any cell whatever, with any outdated
      knowledge in it, reaches exactly its goal. */
  lemma {:induction false} SettleReachesGoal(conf: Config, t: Task, c: Cell)
    ensures Settle(conf, t, c) == Cell(Goal(conf, t, c), false, None)
    decreases Potential(c)
  {
    if !Idle(c) {
      AdvanceKeepsGoal(conf, t, c);
      AdvanceDescends(conf, t, c);
      SettleReachesGoal(conf, t, Advance(conf, t, c));
    }
  }

  /** One successful reconcile of an idle task, from dequeue to return. */
  lemma ReconcileReachesTarget(conf: Config, t: Task, v: View)
    ensures Settle(conf, t, Cell(v, true, None)) == Cell(Target(conf, t, v), false, None)
  {
    SettleReachesGoal(conf, t, Cell(v, true, None));
  }

  /** Level-triggered: a second reconcile, however often it is asked for, changes nothing. */
  lemma SecondReconcileIsIdle(conf: Config, t: Task, v: View)
    ensures
      var once := Settle(conf, t, Cell(v, true, None));
      Settle(conf, t, once.(dirty := true)) == once
  {
    ReconcileReachesTarget(conf, t, v);
    ReconcileReachesTarget(conf, t, Target(conf, t, v));
    TargetIdempotent(conf, t, v);
  }
}

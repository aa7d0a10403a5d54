/** What a failed API call changes about the store the controllers end in: for every position of a
    reconcile, and any knowledge it holds, outdated or not, the exact condition. */
module Recovery {
  import opened Kube
  import opened ProxyPod
  import opened Protocol
  import opened History
  import opened Quiescence
  import opened Drain
  import opened Convergence

  // ---------- One cell ----------

  predicate PointsTo(ep: Option<Endpoints>, subsets: seq<Subset>) {
    ep.Some? && ep.value.subsets == subsets
  }

  /** A reconcile finds nothing to do here. */
  predicate Rests(t: Task, v: View) {
    match Decide(t.ctl, v.svc)
    case Remove => v.pod.None?
    case Skip => true
    case Ensure(_) => v.pod.Some? && (WantedSubsets(t, v).Some? ==> PointsTo(v.ep, WantedSubsets(t, v).value))
  }

  lemma RestsExact(conf: Config, t: Task, v: View)
    ensures Rests(t, v) <==> Target(conf, t, v) == v
  {
  }

  /** Giving the write ahead up for a retry ends in the same store: the retry makes up for the write, or
      undoes it just as well. `conf`, the Service and the secrets are those the retry will see. */
  predicate Redone(conf: Config, t: Task, c: Cell, write: Write) {
    var verdict := Decide(t.ctl, c.view.svc);
    match write
    case Nothing => c.dirty || Rests(t, c.view)
    case Refused => true
    case Deletion => verdict.Remove? || (verdict.Ensure? && c.view.pod == Some(PodFor(conf, t, verdict.svc, c.view.secrets)))
    case Creation(pod) => verdict.Remove? || (verdict.Ensure? && pod == PodFor(conf, t, verdict.svc, c.view.secrets))
    case Pointing(subsets) =>
      WantedSubsets(t, c.view) == Some(subsets) || (PointsTo(c.view.ep, subsets) && (c.dirty || Rests(t, c.view)))
  }

  predicate Writes(pc: Pc) {
    pc.CleanupDelete? || pc.PodCreate? || pc.EndpointsCreate? || pc.EndpointsUpdate?
  }

  /** Secret reads: the first own-namespace read may always fail; the operator-namespace read may if the
      own namespace has the secret or the operator's gives no token; the last read may if the own
      namespace has no secret; and each may if the pod is unwanted by now. */
  predicate Absorbed(conf: Config, t: Task, v: View, pc: Pc)
    requires ReadsSecret(pc)
  {
    var own := SecretValue(conf, Snapshot(pc).value, v.secrets, t.key.ns);
    var op := SecretValue(conf, Snapshot(pc).value, v.secrets, OperatorNamespace(conf));
    || pc.TokenOwn?
    || (pc.TokenOperator? && (own.Some? || OrEmpty(op) == ""))
    || (pc.EnvOwn? && own.None?)
    || Decide(t.ctl, v.svc).Remove?
  }

  /** The outcome of the next call makes no difference to where the cell ends. */
  predicate Traceless(conf: Config, t: Task, c: Cell, out: Outcome) {
    c.pc.None? || out == Ok ||
    var pc := c.pc.value;
    var write := Ahead(conf, t, c.view, pc);
    if ReadsSecret(pc) then Absorbed(conf, t, c.view, pc)
    else if Writes(pc) && out == Applied && !write.Refused? then c.dirty || Rests(t, Written(c.view, write))
    else Redone(conf, t, c, write)
  }

  lemma SameEnv(conf: Config, svc: Service, found: bool, token: string, found': bool, token': string)
    ensures NetclientEnv(conf, svc, found, token) == NetclientEnv(conf, svc, found', token')
       <==> found == found' && (found || token == token')
  {
    var a, b := NetclientEnv(conf, svc, found, token), NetclientEnv(conf, svc, found', token');
    assert a == b <==> a[2] == b[2];
  }

  lemma SamePod(conf: Config, t: Task, svc: Service, a: seq<EnvVar>, b: seq<EnvVar>)
    ensures NewPod(conf, t, svc, a) == NewPod(conf, t, svc, b) <==> a == b
  {
    assert BuildPod(conf, t.ctl, t.key, svc, a).containers[0].env == a;
    assert BuildPod(conf, t.ctl, t.key, svc, b).containers[0].env == b;
  }

  /** The pods of a look-up whose reads succeed and fail as given, against a stable store of secrets: it is
      the intended one exactly if the last read succeeded or the own namespace has no secret, and
      the operator's read did or was of no use. */
  lemma EnvUnderFailure(conf: Config, k: Key, svc: Service, s: Secrets, ok1: bool, ok2: bool, ok3: bool)
    ensures
      var own, op := SecretValue(conf, svc, s, k.ns), SecretValue(conf, svc, s, OperatorNamespace(conf));
      EnvFromReads(conf, k, svc, s, ok1, s, ok2, s, ok3) == EnvFromReads(conf, k, svc, s, true, s, true, s, true)
      <==> if own.Some? then ok3 else ok2 || OrEmpty(op) == ""
  {
    var first := ReadSecret(conf, svc, s, k.ns, ok1);
    var token := OrEmpty(OrElse(first, ReadSecret(conf, svc, s, OperatorNamespace(conf), ok2)));
    SameEnv(conf, svc, ReadSecret(conf, svc, s, k.ns, ok3).Some?, token,
            SecretValue(conf, svc, s, k.ns).Some?, Intended(conf, k, svc, s));
  }

  /** Deleting the pod before the retry decides ends in the same view exactly if it is to go anyway, or
      the retry builds the very pod deleted. */
  lemma RebuildsDeleted(conf: Config, t: Task, v: View)
    requires v.pod.Some?
    ensures
      var verdict := Decide(t.ctl, v.svc);
      Target(conf, t, v.(pod := None)) == Target(conf, t, v)
      <==> verdict.Remove? || (verdict.Ensure? && v.pod == Some(PodFor(conf, t, verdict.svc, v.secrets)))
  {
  }

  lemma DeletionAhead(conf: Config, t: Task, c: Cell)
    requires Fresh(t, c) && c.pc.Some? && Ahead(conf, t, c.view, c.pc.value).Deletion?
    ensures c.view.pod.Some? && (c.dirty || Decide(t.ctl, c.view.svc).Remove?)
  {
  }

  lemma AbortDeletion(conf: Config, t: Task, c: Cell)
    requires Fresh(t, c) && c.pc.Some? && Ahead(conf, t, c.view, c.pc.value).Deletion?
    ensures Goal(conf, t, c) == Target(conf, t, c.view) <==> Redone(conf, t, c, Deletion)
  {
    DeletionAhead(conf, t, c);
    RebuildsDeleted(conf, t, c.view);
  }

  lemma AbortCreation(conf: Config, t: Task, c: Cell, pod: Pod)
    requires Fresh(t, c) && c.pc.Some? && Ahead(conf, t, c.view, c.pc.value) == Creation(pod)
    ensures Goal(conf, t, c) == Target(conf, t, c.view) <==> Redone(conf, t, c, Creation(pod))
  {
  }

  lemma AbortPointing(conf: Config, t: Task, c: Cell, subsets: seq<Subset>)
    requires Fresh(t, c) && c.pc.Some? && (t.ctl.Ingress? ==> !OnEndpoints(c.pc.value))
    requires Ahead(conf, t, c.view, c.pc.value) == Pointing(subsets)
    ensures Goal(conf, t, c) == Target(conf, t, c.view) <==> Redone(conf, t, c, Pointing(subsets))
  {
    RestsExact(conf, t, c.view);
  }

  lemma AbortGoal(conf: Config, t: Task, c: Cell)
    requires Fresh(t, c) && c.pc.Some? && (t.ctl.Ingress? ==> !OnEndpoints(c.pc.value))
    ensures Goal(conf, t, c) == Target(conf, t, c.view) <==> Redone(conf, t, c, Ahead(conf, t, c.view, c.pc.value))
  {
    match Ahead(conf, t, c.view, c.pc.value)
    case Nothing => RestsExact(conf, t, c.view);
    case Refused =>
    case Deletion => AbortDeletion(conf, t, c);
    case Creation(pod) => AbortCreation(conf, t, c, pod);
    case Pointing(subsets) => AbortPointing(conf, t, c, subsets);
  }

  lemma PassingFailure(conf: Config, t: Task, c: Cell, out: Outcome)
    requires Fresh(t, c) && c.pc.Some? && (t.ctl.Ingress? ==> !OnEndpoints(c.pc.value))
    requires out != Ok && !ReadsSecret(c.pc.value) && !(Writes(c.pc.value) && out == Applied)
    ensures CellCall(conf, t, c, out) == Cell(c.view, true, None)
  {
  }

  lemma AppliedFailure(conf: Config, t: Task, c: Cell)
    requires c.pc.Some? && Writes(c.pc.value)
    ensures CellCall(conf, t, c, Applied) == Cell(Written(c.view, Ahead(conf, t, c.view, c.pc.value)), true, None)
  {
  }

  lemma AppliedGoal(conf: Config, t: Task, c: Cell)
    requires c.pc.Some? && Writes(c.pc.value)
    ensures Goal(conf, t, CellCall(conf, t, c, Applied)) == Goal(conf, t, c) <==> Traceless(conf, t, c, Applied)
  {
    var write := Ahead(conf, t, c.view, c.pc.value);
    AppliedFailure(conf, t, c);
    RestsExact(conf, t, Written(c.view, write));
  }

  lemma OwnReadFailure(conf: Config, t: Task, c: Cell, svc: Service, out: Outcome)
    requires c.pc == Some(TokenOwn(svc)) && out != Ok
    ensures Goal(conf, t, CellCall(conf, t, c, out)) == Goal(conf, t, c)
  {
    EnvUnderFailure(conf, t.key, svc, c.view.secrets, false, true, true);
  }

  lemma CreationGoal(conf: Config, t: Task, v: View, dirty: bool, svc: Service, netEnv: seq<EnvVar>)
    requires Fresh(t, Cell(v, dirty, Some(PodCreate(svc, netEnv))))
    ensures Goal(conf, t, Cell(v, dirty, Some(PodCreate(svc, netEnv))))
         == if Decide(t.ctl, v.svc).Remove? then v else v.(pod := Some(NewPod(conf, t, svc, netEnv)))
  {
  }

  /** The reconcile is about to create a pod with one environment instead of another. */
  lemma OtherPod(conf: Config, t: Task, v: View, dirty: bool, svc: Service, a: seq<EnvVar>, b: seq<EnvVar>)
    requires Fresh(t, Cell(v, dirty, Some(PodCreate(svc, a))))
    ensures Goal(conf, t, Cell(v, dirty, Some(PodCreate(svc, a)))) == Goal(conf, t, Cell(v, dirty, Some(PodCreate(svc, b))))
       <==> a == b || Decide(t.ctl, v.svc).Remove?
  {
    SamePod(conf, t, svc, a, b);
    CreationGoal(conf, t, v, dirty, svc, a);
    CreationGoal(conf, t, v, dirty, svc, b);
  }

  lemma EnvReadFailure(conf: Config, t: Task, v: View, dirty: bool, svc: Service, token: string, out: Outcome)
    requires Fresh(t, Cell(v, dirty, Some(EnvOwn(svc, token)))) && out != Ok
    ensures
      var c := Cell(v, dirty, Some(EnvOwn(svc, token)));
      Goal(conf, t, CellCall(conf, t, c, out)) == Goal(conf, t, c) <==> Absorbed(conf, t, v, EnvOwn(svc, token))
  {
    var c := Cell(v, dirty, Some(EnvOwn(svc, token)));
    var found := SecretValue(conf, svc, v.secrets, t.key.ns).Some?;
    var a, b := NetclientEnv(conf, svc, false, token), NetclientEnv(conf, svc, found, token);
    EnvReadKeepsGoal(conf, t, v, dirty, svc, token);
    assert CellCall(conf, t, c, Ok) == Cell(v, dirty, Some(PodCreate(svc, b)));
    assert CellCall(conf, t, c, out) == Cell(v, dirty, Some(PodCreate(svc, a)));
    SameEnv(conf, svc, false, token, found, token);
    OtherPod(conf, t, v, dirty, svc, a, b);
  }

  lemma EnvGoal(conf: Config, t: Task, v: View, dirty: bool, svc: Service, token: string)
    ensures
      var found := SecretValue(conf, svc, v.secrets, t.key.ns).Some?;
      Goal(conf, t, Cell(v, dirty, Some(EnvOwn(svc, token))))
      == Goal(conf, t, Cell(v, dirty, Some(PodCreate(svc, NetclientEnv(conf, svc, found, token)))))
  {
    EnvReadKeepsGoal(conf, t, v, dirty, svc, token);
  }

  /** The reconcile goes on with one token instead of another. */
  lemma OtherToken(conf: Config, t: Task, v: View, dirty: bool, svc: Service, a: string, b: string)
    requires Fresh(t, Cell(v, dirty, Some(EnvOwn(svc, a))))
    ensures Goal(conf, t, Cell(v, dirty, Some(EnvOwn(svc, a)))) == Goal(conf, t, Cell(v, dirty, Some(EnvOwn(svc, b))))
       <==> a == b || SecretValue(conf, svc, v.secrets, t.key.ns).Some? || Decide(t.ctl, v.svc).Remove?
  {
    var found := SecretValue(conf, svc, v.secrets, t.key.ns).Some?;
    EnvGoal(conf, t, v, dirty, svc, a);
    EnvGoal(conf, t, v, dirty, svc, b);
    SameEnv(conf, svc, found, a, found, b);
    OtherPod(conf, t, v, dirty, svc, NetclientEnv(conf, svc, found, a), NetclientEnv(conf, svc, found, b));
  }

  lemma OperatorReadFailure(conf: Config, t: Task, v: View, dirty: bool, svc: Service, out: Outcome)
    requires Fresh(t, Cell(v, dirty, Some(TokenOperator(svc)))) && out != Ok
    ensures
      var c := Cell(v, dirty, Some(TokenOperator(svc)));
      Goal(conf, t, CellCall(conf, t, c, out)) == Goal(conf, t, c) <==> Absorbed(conf, t, v, TokenOperator(svc))
  {
    var c := Cell(v, dirty, Some(TokenOperator(svc)));
    var token := OrEmpty(SecretValue(conf, svc, v.secrets, OperatorNamespace(conf)));
    OperatorReadKeepsGoal(conf, t, v, dirty, svc);
    assert CellCall(conf, t, c, Ok) == Cell(v, dirty, Some(EnvOwn(svc, token)));
    assert CellCall(conf, t, c, out) == Cell(v, dirty, Some(EnvOwn(svc, "")));
    OtherToken(conf, t, v, dirty, svc, token, "");
  }

  lemma ReadFailure(conf: Config, t: Task, c: Cell, out: Outcome)
    requires Fresh(t, c) && c.pc.Some? && ReadsSecret(c.pc.value) && out != Ok
    ensures Goal(conf, t, CellCall(conf, t, c, out)) == Goal(conf, t, c) <==> Absorbed(conf, t, c.view, c.pc.value)
  {
    match c.pc.value
    case TokenOwn(svc) => OwnReadFailure(conf, t, c, svc, out);
    case TokenOperator(svc) => OperatorReadFailure(conf, t, c.view, c.dirty, svc, out);
    case EnvOwn(svc, token) => EnvReadFailure(conf, t, c.view, c.dirty, svc, token, out);
  }

  /** A call, whatever its outcome, keeps the goal of its cell exactly if it is traceless. */
  lemma CallKeepsGoal(conf: Config, t: Task, c: Cell, out: Outcome)
    requires Fresh(t, c) && (c.pc.Some? && t.ctl.Ingress? ==> !OnEndpoints(c.pc.value))
    ensures Goal(conf, t, CellCall(conf, t, c, out)) == Goal(conf, t, c) <==> Traceless(conf, t, c, out)
  {
    if c.pc.Some? {
      if out == Ok {
        AdvanceKeepsGoal(conf, t, c);
      } else if ReadsSecret(c.pc.value) {
        ReadFailure(conf, t, c, out);
      } else if Writes(c.pc.value) && out == Applied {
        AppliedGoal(conf, t, c);
      } else {
        PassingFailure(conf, t, c, out);
        AbortGoal(conf, t, c);
      }
    }
  }

  // ---------- The whole cluster ----------

  /** Holds in every reachable state: what each reconcile knows is still true, or its task is queued. */
  ghost predicate Sound(w: World) {
    WellFormed(w) && forall t: Task :: Fresh(t, CellOf(w, t))
  }

  lemma ReachableIsSound(w: World, es: seq<Event>)
    requires Init(w)
    ensures Sound(Run(w, es))
  {
    forall t: Task ensures WellFormed(Run(w, es)) && Fresh(t, CellOf(Run(w, es), t)) {
      RunInvariants(w, es, t);
    }
    assert WellFormed(Run(w, es)) by { RunInvariants(w, es, Task(Egress, Key("", ""))); }
  }

  lemma StaysSound(w: World, e: Event)
    requires Sound(w)
    ensures Sound(Apply(w, e)) && Apply(w, e).conf == w.conf
  {
    StaysWellFormed(w, e);
    forall t: Task ensures Fresh(t, CellOf(Apply(w, e), t)) {
      CellStep(w, e, t);
      FreshStep(w.conf, t, CellOf(w, t), e);
    }
  }

  /** A step of the controllers themselves, in which a call may fail. */
  predicate OwnEvent(e: Event) {
    e.Dequeue? || e.Call?
  }

  predicate TracelessStep(w: World, e: Event) {
    e.Dequeue? || (e.Call? && Traceless(w.conf, e.t, CellOf(w, e.t), e.out))
  }

  predicate TracelessRun(w: World, es: seq<Event>) {
    es != [] ==> TracelessRun(w, es[..|es| - 1]) && TracelessStep(Run(w, es[..|es| - 1]), es[|es| - 1])
  }

  /** Both clusters are going to end with the same objects and nothing left to do. */
  ghost predicate SameGoals(w: World, w': World) {
    forall t: Task :: Goal(w.conf, t, CellOf(w, t)) == Goal(w.conf, t, CellOf(w', t))
  }

  lemma StepKeepsGoal(w: World, e: Event, t: Task)
    requires Sound(w) && OwnEvent(e)
    ensures Goal(w.conf, t, CellOf(Apply(w, e), t)) == Goal(w.conf, t, CellOf(w, t)) <==> t != e.t || TracelessStep(w, e)
  {
    CellStep(w, e, t);
    if t == e.t {
      if e.Call? {
        WellFormedCell(w, t);
        CallKeepsGoal(w.conf, t, CellOf(w, t), e.out);
      } else if !CellOf(w, t).pc.Some? {
        AdvanceKeepsGoal(w.conf, t, CellOf(w, t));
      }
    }
  }

  lemma WellFormedCell(w: World, t: Task)
    requires WellFormed(w)
    ensures var pc := CellOf(w, t).pc; pc.Some? && t.ctl.Ingress? ==> !OnEndpoints(pc.value)
  {
  }

  lemma StepExact(w: World, e: Event)
    requires Sound(w) && OwnEvent(e)
    ensures SameGoals(w, Apply(w, e)) <==> TracelessStep(w, e)
  {
    forall t: Task
      ensures Goal(w.conf, t, CellOf(Apply(w, e), t)) == Goal(w.conf, t, CellOf(w, t)) <==> t != e.t || TracelessStep(w, e)
    {
      StepKeepsGoal(w, e, t);
    }
  }

  lemma {:induction false} TracelessRunKeepsGoals(w: World, es: seq<Event>)
    requires Sound(w) && TracelessRun(w, es)
    ensures Sound(Run(w, es)) && Run(w, es).conf == w.conf
    ensures SameGoals(w, Run(w, es)) && SameSurroundings(w, Run(w, es))
  {
    if es != [] {
      var p, e := es[..|es| - 1], es[|es| - 1];
      TracelessRunKeepsGoals(w, p);
      StaysSound(Run(w, p), e);
      StepExact(Run(w, p), e);
      SurroundingsStay(Run(w, p), e);
    }
  }

  lemma {:induction false} DrainIsTraceless(w: World, es: seq<Event>)
    requires DrainRun(es)
    ensures TracelessRun(w, es)
  {
    if es != [] {
      DrainIsTraceless(w, es[..|es| - 1]);
      assert DrainEvent(es[|es| - 1]);
    }
  }

  /** Drained clusters with the same surroundings are equal exactly if they were going to the same end. */
  lemma DrainedEqual(w: World, w': World)
    requires SameSurroundings(w, w') && Drained(w) && Drained(w')
    ensures w == w' <==> SameGoals(w, w')
  {
    if SameGoals(w, w') {
      forall t: Task ensures CellOf(w, t) == CellOf(w', t) {
        assert Goal(w.conf, t, CellOf(w, t)) == Goal(w.conf, t, CellOf(w', t));
      }
      SameCells(w, w');
    }
  }

  /** Failure recovery. In any reachable state, with any outdated knowledge in any reconcile: however many
      calls of both controllers fail, before or after taking effect, as long as each failure is
      traceless where it happens, and however the retries interleave, once the queues are empty the
      cluster is exactly the one that working them off without a failure gives. */
  lemma FailuresLeaveNoTrace(w: World, es: seq<Event>, clean: seq<Event>)
    requires Sound(w) && TracelessRun(w, es) && Drained(Run(w, es))
    requires DrainRun(clean) && Drained(Run(w, clean))
    ensures Run(w, es) == Run(w, clean)
  {
    DrainIsTraceless(w, clean);
    TracelessRunKeepsGoals(w, es);
    TracelessRunKeepsGoals(w, clean);
    DrainedEqual(Run(w, es), Run(w, clean));
  }

  /** And no weaker condition will do: a single call that is not traceless where it happens leaves its
      trace in the cluster, whatever traceless work comes before and after it. */
  lemma FailureLeavesTraceExactly(w: World, before: seq<Event>, e: Event, after: seq<Event>, clean: seq<Event>)
    requires Sound(w) && TracelessRun(w, before) && OwnEvent(e)
    requires
      var hit := Apply(Run(w, before), e);
      TracelessRun(hit, after) && Drained(Run(hit, after))
    requires DrainRun(clean) && Drained(Run(w, clean))
    ensures Run(Apply(Run(w, before), e), after) == Run(w, clean) <==> TracelessStep(Run(w, before), e)
  {
    var mid := Run(w, before);
    var hit := Apply(mid, e);
    TracelessRunKeepsGoals(w, before);
    StaysSound(mid, e);
    StepExact(mid, e);
    SurroundingsStay(mid, e);
    TracelessRunKeepsGoals(hit, after);
    DrainIsTraceless(w, clean);
    TracelessRunKeepsGoals(w, clean);
    DrainedEqual(Run(hit, after), Run(w, clean));
  }

  // ---------- When every reconcile in progress is up to date ----------

  /** What the reconcile in progress has read leads it to write what the store now calls for. */
  predicate CurrentPc(conf: Config, t: Task, v: View, pc: Pc) {
    && (Cleaning(pc) ==> Decide(t.ctl, v.svc).Remove?)
    && (Snapshot(pc).Some? ==> v.svc == Snapshot(pc))
    && match pc
       case EnvOwn(svc, token) =>
         SecretValue(conf, svc, v.secrets, t.key.ns).None? ==> token == Intended(conf, t.key, svc, v.secrets)
       case PodCreate(svc, netEnv) =>
         netEnv == EnvFromReads(conf, t.key, svc, v.secrets, true, v.secrets, true, v.secrets, true)
       case EndpointsPodGet(_) => v.pod.Some?
       case EndpointsGet(_, pod) => v.pod == Some(pod) && pod.phase == Running
       case EndpointsCreate(_, pod) => v.pod == Some(pod) && pod.phase == Running
       case EndpointsUpdate(_, pod, _) => v.pod == Some(pod) && pod.phase == Running
       case _ => true
  }

  predicate Current(conf: Config, t: Task, c: Cell) {
    c.pc.Some? ==> CurrentPc(conf, t, c.view, c.pc.value)
  }

  ghost predicate AllCurrent(w: World) {
    forall t | t in w.active :: CurrentPc(w.conf, t, ViewOf(w, t), w.active[t])
  }

  /** A step in which any call may fail, except a read of a secret that the look-up cannot do without. */
  predicate RetryEvent(w: World, e: Event) {
    e.Dequeue? || (e.Call? && (e.out != Ok && e.t in w.active && ReadsSecret(w.active[e.t]) ==>
                                Absorbed(w.conf, e.t, ViewOf(w, e.t), w.active[e.t])))
  }

  predicate RetryRun(w: World, es: seq<Event>) {
    es != [] ==> RetryRun(w, es[..|es| - 1]) && RetryEvent(Run(w, es[..|es| - 1]), es[|es| - 1])
  }

  predicate Retried(conf: Config, t: Task, c: Cell, out: Outcome) {
    && Fresh(t, c) && Current(conf, t, c) && c.pc.Some? && (t.ctl.Ingress? ==> !OnEndpoints(c.pc.value))
    && (out != Ok && ReadsSecret(c.pc.value) ==> Absorbed(conf, t, c.view, c.pc.value))
  }

  lemma CurrentAhead(conf: Config, t: Task, c: Cell)
    requires Fresh(t, c) && Current(conf, t, c) && c.pc.Some? && (t.ctl.Ingress? ==> !OnEndpoints(c.pc.value))
    requires !ReadsSecret(c.pc.value)
    ensures Redone(conf, t, c, Ahead(conf, t, c.view, c.pc.value))
  {
  }

  lemma CurrentWrite(conf: Config, t: Task, c: Cell)
    requires Fresh(t, c) && Current(conf, t, c) && c.pc.Some? && (t.ctl.Ingress? ==> !OnEndpoints(c.pc.value))
    requires Writes(c.pc.value) && !Ahead(conf, t, c.view, c.pc.value).Refused?
    ensures Rests(t, Written(c.view, Ahead(conf, t, c.view, c.pc.value)))
  {
  }

  lemma CurrentIsTraceless(conf: Config, t: Task, c: Cell, out: Outcome)
    requires Retried(conf, t, c, out)
    ensures Traceless(conf, t, c, out)
  {
    if !ReadsSecret(c.pc.value) {
      CurrentAhead(conf, t, c);
      if Writes(c.pc.value) && !Ahead(conf, t, c.view, c.pc.value).Refused? {
        CurrentWrite(conf, t, c);
      }
    }
  }

  lemma CurrentRead(conf: Config, t: Task, c: Cell, out: Outcome)
    requires Retried(conf, t, c, out) && ReadsSecret(c.pc.value)
    ensures Current(conf, t, CellCall(conf, t, c, out))
  {
  }

  lemma CurrentEndpoints(conf: Config, t: Task, c: Cell, out: Outcome)
    requires Retried(conf, t, c, out) && OnEndpoints(c.pc.value)
    ensures Current(conf, t, CellCall(conf, t, c, out))
  {
  }

  lemma CurrentDecision(conf: Config, t: Task, c: Cell, out: Outcome)
    requires Retried(conf, t, c, out) && !ReadsSecret(c.pc.value) && !OnEndpoints(c.pc.value)
    ensures Current(conf, t, CellCall(conf, t, c, out))
  {
  }

  lemma CurrentCall(conf: Config, t: Task, c: Cell, out: Outcome)
    requires Retried(conf, t, c, out)
    ensures Current(conf, t, CellCall(conf, t, c, out))
  {
    if ReadsSecret(c.pc.value) {
      CurrentRead(conf, t, c, out);
    } else if OnEndpoints(c.pc.value) {
      CurrentEndpoints(conf, t, c, out);
    } else {
      CurrentDecision(conf, t, c, out);
    }
  }

  lemma RetryCell(w: World, e: Event, t: Task)
    requires Sound(w) && AllCurrent(w) && RetryEvent(w, e)
    ensures Current(w.conf, t, CellOf(Apply(w, e), t))
    ensures e.Call? && t == e.t ==> Traceless(w.conf, t, CellOf(w, t), e.out)
  {
    CellStep(w, e, t);
    if e.Call? && e.t == t && t in w.active {
      WellFormedCell(w, t);
      CurrentIsTraceless(w.conf, t, CellOf(w, t), e.out);
      CurrentCall(w.conf, t, CellOf(w, t), e.out);
    }
  }

  lemma RetryStep(w: World, e: Event)
    requires Sound(w) && AllCurrent(w) && RetryEvent(w, e)
    ensures TracelessStep(w, e) && AllCurrent(Apply(w, e))
  {
    StaysWellFormed(w, e);
    RetryCell(w, e, e.t);
    forall t | t in Apply(w, e).active
      ensures CurrentPc(w.conf, t, ViewOf(Apply(w, e), t), Apply(w, e).active[t])
    {
      RetryCell(w, e, t);
    }
  }

  lemma {:induction false} RetryRunIsTraceless(w: World, es: seq<Event>)
    requires Sound(w) && AllCurrent(w) && RetryRun(w, es)
    ensures Sound(Run(w, es)) && AllCurrent(Run(w, es)) && TracelessRun(w, es)
  {
    if es != [] {
      RetryRunIsTraceless(w, es[..|es| - 1]);
      StaysSound(Run(w, es[..|es| - 1]), es[|es| - 1]);
      RetryStep(Run(w, es[..|es| - 1]), es[|es| - 1]);
    }
  }

  /** In particular, starting with no reconcile in progress, or with up-to-date ones only: every failure of
      a Service, pod or Endpoints call is made good, and so is every failed secret read that the
      look-up can do without. */
  lemma RetriesLeaveNoTrace(w: World, es: seq<Event>, clean: seq<Event>)
    requires Sound(w) && AllCurrent(w) && RetryRun(w, es) && Drained(Run(w, es))
    requires DrainRun(clean) && Drained(Run(w, clean))
    ensures Run(w, es) == Run(w, clean)
  {
    RetryRunIsTraceless(w, es);
    FailuresLeaveNoTrace(w, es, clean);
  }

  // ---------- Failures that do leave a trace ----------

  /** A task is taken up, decides for the pod, and finds neither a pod nor a secret of its own. */
  lemma ApproachesOperatorSecret(conf: Config, t: Task, v: View, svc: Service)
    requires Decide(t.ctl, v.svc) == Ensure(svc) && v.pod.None?
    requires SecretValue(conf, svc, v.secrets, t.key.ns).None?
    ensures CellRun(conf, t, Cell(v, true, None), [Dequeue(t), Call(t, Ok), Call(t, Ok), Call(t, Ok)])
         == Cell(v, false, Some(TokenOperator(svc)))
  {
    var c0, es := Cell(v, true, None), [Dequeue(t), Call(t, Ok), Call(t, Ok), Call(t, Ok)];
    assert es[..1][..0] == es[..0] && CellRun(conf, t, c0, es[..1]) == Cell(v, false, Some(Fetch));
    assert es[..2][..1] == es[..1] && CellRun(conf, t, c0, es[..2]) == Cell(v, false, Some(PodGet(svc)));
    assert es[..3][..2] == es[..2] && CellRun(conf, t, c0, es[..3]) == Cell(v, false, Some(TokenOwn(svc)));
    assert es[..|es| - 1] == es[..3];
  }

  function WithEmptyToken(conf: Config, t: Task, v: View, svc: Service): View {
    v.(pod := Some(NewPod(conf, t, svc, NetclientEnv(conf, svc, false, ""))))
  }

  lemma LosesOperatorSecret(conf: Config, t: Task, v: View, svc: Service)
    requires v.pod.None? && SecretValue(conf, svc, v.secrets, t.key.ns).None?
    ensures CellRun(conf, t, Cell(v, false, Some(TokenOperator(svc))), [Call(t, Lost), Call(t, Ok)])
         == Cell(v, false, Some(PodCreate(svc, NetclientEnv(conf, svc, false, ""))))
  {
    var c0, es := Cell(v, false, Some(TokenOperator(svc))), [Call(t, Lost), Call(t, Ok)];
    assert es[..1][..0] == es[..0] && CellRun(conf, t, c0, es[..1]) == Cell(v, false, Some(EnvOwn(svc, "")));
    assert es[..|es| - 1] == es[..1];
  }

  /** A lost read of a secret that matters: if the operator-namespace secret holds the token but its read
      fails while the pod is being built, the pod is created with an empty token, and every later
      reconcile leaves it like that. */
  lemma LostSecretReadIsFrozen(conf: Config, t: Task, v: View, svc: Service)
    requires Decide(t.ctl, v.svc) == Ensure(svc) && v.pod.None?
    requires SecretValue(conf, svc, v.secrets, t.key.ns).None?
    requires Intended(conf, t.key, svc, v.secrets) != ""
    ensures
      var frozen := WithEmptyToken(conf, t, v, svc);
      var building := CellRun(conf, t, Cell(v, true, None), [Dequeue(t), Call(t, Ok), Call(t, Ok), Call(t, Ok)]);
      && CellApply(conf, t, CellRun(conf, t, building, [Call(t, Lost), Call(t, Ok)]), Call(t, Ok))
         == Cell(frozen, false, if t.ctl.Egress? then Some(EndpointsPodGet(svc)) else None)
      && Target(conf, t, frozen) == frozen != Target(conf, t, v)
  {
    ApproachesOperatorSecret(conf, t, v, svc);
    LosesOperatorSecret(conf, t, v, svc);
    EmptyTokenStays(conf, t, v, svc);
  }

  lemma EmptyTokenStays(conf: Config, t: Task, v: View, svc: Service)
    requires Decide(t.ctl, v.svc) == Ensure(svc) && v.pod.None?
    requires SecretValue(conf, svc, v.secrets, t.key.ns).None?
    requires Intended(conf, t.key, svc, v.secrets) != ""
    ensures
      var frozen := WithEmptyToken(conf, t, v, svc);
      Target(conf, t, frozen) == frozen != Target(conf, t, v)
  {
    SameEnv(conf, svc, false, "", false, Intended(conf, t.key, svc, v.secrets));
    SamePod(conf, t, svc, NetclientEnv(conf, svc, false, ""),
            EnvFromReads(conf, t.key, svc, v.secrets, true, v.secrets, true, v.secrets, true));
  }

  /** A reconcile has read the Service and now waits for its second call while the Service is edited. */
  function Overtaken(t: Task, after: Service): seq<Event> {
    [Dequeue(t), Call(t, Ok), PutService(t.key, after)]
  }

  lemma OvertakenCell(w: World, t: Task, before: Service, after: Service)
    requires Init(w) && Lookup(w.services, t.key) == Some(before) && Decide(t.ctl, Some(before)).Ensure?
    ensures Sound(Run(w, Overtaken(t, after))) && Run(w, Overtaken(t, after)).conf == w.conf
    ensures CellOf(Run(w, Overtaken(t, after)), t)
         == Cell(ViewOf(w, t).(svc := Some(after)), true, Some(PodGet(before)))
  {
    var es := Overtaken(t, after);
    ReachableIsSound(w, es);
    assert Sound(w) by { assert Run(w, []) == w; ReachableIsSound(w, []); }
    CellProduct(w, es, t);
    Member(w.services, t);
    var c0 := CellOf(w, t);
    assert es[..1][..0] == es[..0] && CellRun(w.conf, t, c0, es[..1]) == Cell(c0.view, false, Some(Fetch));
    assert es[..2][..1] == es[..1] && CellRun(w.conf, t, c0, es[..2]) == Cell(c0.view, false, Some(PodGet(before)));
    assert es[..|es| - 1] == es[..2];
  }

  /** An outdated snapshot can make a failure matter, in a reachable state: the Service is edited after a
      reconcile has read it and before it looks for the pod. If that look succeeds, the pod of the old
      version is made and stays; if it fails, the retry makes the pod of the new version. */
  lemma StaleSnapshotMatters(w: World, t: Task, before: Service, after: Service, d: seq<Event>, d': seq<Event>)
    requires Init(w) && Lookup(w.services, t.key) == Some(before)
    requires Decide(t.ctl, Some(before)).Ensure? && Decide(t.ctl, Some(after)).Ensure?
    requires PodFor(w.conf, t, before, w.secrets) != PodFor(w.conf, t, after, w.secrets)
    requires DrainRun(d) && Drained(Run(Apply(Run(w, Overtaken(t, after)), Call(t, Ok)), d))
    requires DrainRun(d') && Drained(Run(Apply(Run(w, Overtaken(t, after)), Call(t, Lost)), d'))
    ensures
      var end := Run(Apply(Run(w, Overtaken(t, after)), Call(t, Ok)), d);
      var end' := Run(Apply(Run(w, Overtaken(t, after)), Call(t, Lost)), d');
      && !TracelessStep(Run(w, Overtaken(t, after)), Call(t, Lost))
      && Lookup(end.pods, PodKey(t)) == Some(PodFor(w.conf, t, before, w.secrets))
      && Lookup(end'.pods, PodKey(t)) == Some(PodFor(w.conf, t, after, w.secrets))
      && Lookup(end.pods, PodKey(t)) != Lookup(end'.pods, PodKey(t))
  {
    var mid := Run(w, Overtaken(t, after));
    OvertakenCell(w, t, before, after);
    OvertakenEnd(mid, t, Ok, d);
    OvertakenEnd(mid, t, Lost, d');
    var v := ViewOf(mid, t);
    OvertakenOk(w.conf, t, v, before, after);
    OvertakenLost(w.conf, t, v, before, after);
    AdvanceKeepsGoal(w.conf, t, CellOf(mid, t));
    CallKeepsGoal(w.conf, t, CellOf(mid, t), Lost);
  }

  lemma OvertakenOk(conf: Config, t: Task, v: View, before: Service, after: Service)
    requires v.svc == Some(after) && v.pod.None? && Decide(t.ctl, Some(after)).Ensure?
    ensures
      var c := Cell(v, true, Some(PodGet(before)));
      Goal(conf, t, CellCall(conf, t, c, Ok)).pod == Some(PodFor(conf, t, before, v.secrets))
  {
    var c := Cell(v, true, Some(PodGet(before)));
    PodGetKeepsGoal(conf, t, c);
    assert Ahead(conf, t, v, PodGet(before)) == Creation(PodFor(conf, t, before, v.secrets));
  }

  lemma OvertakenLost(conf: Config, t: Task, v: View, before: Service, after: Service)
    requires v.svc == Some(after) && v.pod.None? && Decide(t.ctl, Some(after)).Ensure?
    ensures
      var c := Cell(v, true, Some(PodGet(before)));
      Goal(conf, t, CellCall(conf, t, c, Lost)).pod == Some(PodFor(conf, t, after, v.secrets))
  {
    assert CellCall(conf, t, Cell(v, true, Some(PodGet(before))), Lost) == Cell(v, true, None);
  }

  lemma OvertakenEnd(w: World, t: Task, out: Outcome, d: seq<Event>)
    requires Sound(w) && DrainRun(d) && Drained(Run(Apply(w, Call(t, out)), d))
    ensures ViewOf(Run(Apply(w, Call(t, out)), d), t) == Goal(w.conf, t, CellCall(w.conf, t, CellOf(w, t), out))
  {
    CellStep(w, Call(t, out), t);
    StaysSound(w, Call(t, out));
    DrainedIsSettled(Apply(w, Call(t, out)), d, t);
    SettleReachesGoal(w.conf, t, CellOf(Apply(w, Call(t, out)), t));
  }

  /** One such case: a Service whose port is edited. */
  lemma StaleSnapshotExample() returns (w: World, t: Task, before: Service, after: Service, d: seq<Event>, d': seq<Event>)
    ensures Init(w) && w.services == map[t.key := before] && DrainRun(d) && DrainRun(d')
    ensures Drained(Run(Apply(Run(w, Overtaken(t, after)), Call(t, Ok)), d))
    ensures Drained(Run(Apply(Run(w, Overtaken(t, after)), Call(t, Lost)), d'))
    ensures Run(Apply(Run(w, Overtaken(t, after)), Call(t, Ok)), d).pods
         != Run(Apply(Run(w, Overtaken(t, after)), Call(t, Lost)), d').pods
  {
    t := Task(Egress, Key("default", "web"));
    var wanted := map["netmaker.io/egress" := "enabled", "netmaker.io/egress-target-ip" := "10.20.0.5"];
    before := Service("uid", wanted, "10.0.0.1", []);
    after := Service("uid", wanted, "10.0.0.1", [ServicePort("http", 80, TargetPort(0, ""), "TCP")]);
    var services := map[t.key := before];
    w := World(Config(map[], "#"), services, map[], map[], map[], TasksOf(services), map[]);
    DifferentPorts(w.conf, t.key, before, after);
    var mid := Run(w, Overtaken(t, after));
    OvertakenCell(w, t, before, after);
    StaysSound(mid, Call(t, Ok));
    StaysSound(mid, Call(t, Lost));
    d := DrainExists(Apply(mid, Call(t, Ok)));
    d' := DrainExists(Apply(mid, Call(t, Lost)));
    StaleSnapshotMatters(w, t, before, after, d, d');
  }

  lemma DifferentPorts(conf: Config, k: Key, before: Service, after: Service)
    requires |before.ports| != |after.ports|
    ensures PodFor(conf, Task(Egress, k), before, map[]) != PodFor(conf, Task(Egress, k), after, map[])
  {
    var a, b := PodFor(conf, Task(Egress, k), before, map[]), PodFor(conf, Task(Egress, k), after, map[]);
    assert a.spec.containers[1].ports == EgressPorts(before.ports);
    assert b.spec.containers[1].ports == EgressPorts(after.ports);
  }
}

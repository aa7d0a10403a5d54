/** The reconcilers as they are written: imperative code that calls the API server step by step while
    everybody else keeps acting on it. Each method is proved to produce a run of the protocol, so all
    that is proved of runs holds of it. */
module ClusterState {
  import opened Kube
  import opened ProxyPod
  import opened Protocol
  import opened Drain

  datatype Reply = Success | NotFound | AlreadyExists | Conflict | Failed

  lemma SameView(w: World, t: Task)
    ensures WithView(w, t, ViewOf(w, t)) == w
  {
    assert Store(w.pods, PodKey(t), Lookup(w.pods, PodKey(t))) == w.pods;
    assert Store(w.endpoints, t.key, Lookup(w.endpoints, t.key)) == w.endpoints;
  }

  /** An event that neither acts in the name of `t` nor restarts the operator. */
  predicate Harmless(e: Event, t: Task) {
    e != Restart && !(e.Call? && e.t == t)
  }

  lemma HarmlessStep(w: World, e: Event, t: Task)
    requires Harmless(e, t)
    ensures t in w.active ==> Lookup(Apply(w, e).active, t) == Lookup(w.active, t)
    ensures Apply(w, e).conf == w.conf
  {
  }

  lemma {:induction false} OthersLeaveTask(w: World, es: seq<Event>, t: Task)
    requires forall i | 0 <= i < |es| :: Harmless(es[i], t)
    ensures t in w.active ==> Lookup(Run(w, es).active, t) == Lookup(w.active, t)
    ensures Run(w, es).conf == w.conf
  {
    if es != [] {
      OthersLeaveTask(w, es[..|es| - 1], t);
      HarmlessStep(Run(w, es[..|es| - 1]), es[|es| - 1], t);
    }
  }

  /** The last event is a call of `t` that made its reconcile return; `err` tells how. */
  ghost predicate Returned(init: World, log: seq<Event>, t: Task, err: bool) {
    && log != [] && log[|log| - 1].Call? && log[|log| - 1].t == t
    && var before := Run(init, log[..|log| - 1]);
       t in before.active
       && React(before.conf, t, ViewOf(before, t), before.active[t], log[|log| - 1].out).next == Return(!err)
  }

  lemma ReadStep(w: World, t: Task, out: Outcome, next: Next)
    requires t in w.active && React(w.conf, t, ViewOf(w, t), w.active[t], out) == Reaction(ViewOf(w, t), next)
    ensures Apply(w, Call(t, out)) == Finish(w, t, next)
  {
    SameView(w, t);
  }

  lemma PodWritten(w: World, t: Task, out: Outcome, pod: Option<Pod>, next: Next, w': World)
    requires t in w.active
    requires React(w.conf, t, ViewOf(w, t), w.active[t], out) == Reaction(ViewOf(w, t).(pod := pod), next)
    requires w' == w.(pods := Store(w.pods, PodKey(t), pod))
    ensures Apply(w, Call(t, out)) == Finish(w', t, next)
  {
    SameView(w, t);
    assert Store(w.endpoints, t.key, Lookup(w.endpoints, t.key)) == w.endpoints;
  }

  lemma EndpointsWritten(w: World, t: Task, out: Outcome, ep: Option<Endpoints>, next: Next, w': World)
    requires t in w.active && t.ctl.Egress?
    requires React(w.conf, t, ViewOf(w, t), w.active[t], out) == Reaction(ViewOf(w, t).(ep := ep), next)
    requires w' == w.(endpoints := Store(w.endpoints, t.key, ep))
    ensures Apply(w, Call(t, out)) == Finish(w', t, next)
  {
    assert Store(w.pods, PodKey(t), Lookup(w.pods, PodKey(t))) == w.pods;
  }

  /** A creation is the protocol's, given the table of pods it leaves. */
  lemma PodCreated(w: World, t: Task, svc: Service, netEnv: seq<EnvVar>, out: Outcome, w': World)
    requires t in w.active && w.active[t] == PodCreate(svc, netEnv)
    requires w' == if PodKey(t) in w.pods || out == Lost then w
                   else w.(pods := w.pods[PodKey(t) := NewPod(w.conf, t, svc, netEnv)])
    ensures
      var next := if PodKey(t) !in w.pods && out == Ok then AfterEnsure(t, svc) else Return(false);
      && React(w.conf, t, ViewOf(w, t), w.active[t], out).next == next
      && (next.Goto? ==> CallsLeft(next.pc) < CallsLeft(w.active[t]))
      && Apply(w, Call(t, out)) == Finish(w', t, next)
  {
    var next := if PodKey(t) !in w.pods && out == Ok then AfterEnsure(t, svc) else Return(false);
    if PodKey(t) in w.pods || out == Lost {
      ReadStep(w, t, out, next);
    } else {
      PodWritten(w, t, out, Some(NewPod(w.conf, t, svc, netEnv)), next, w');
    }
  }

  lemma DequeueStep(w: World, t: Task)
    requires t in w.dirty && t !in w.active
    ensures Apply(w, Dequeue(t)) == w.(dirty := w.dirty - {t}, active := w.active[t := Fetch])
  {
  }

  /** A reconcile makes at most this many API calls. */
  const MAX_CALLS := 9

  class Cluster {
    const conf: Config
    const turns: seq<Turn<Event>>  // the schedule; beyond its end nobody else acts and calls succeed
    var calls: nat

    var services: map<Key, Service>
    var secrets: Secrets
    var pods: map<Key, Pod>
    var endpoints: map<Key, Endpoints>
    var dirty: set<Task>
    var active: map<Task, Pc>

    ghost const init: World
    ghost var log: seq<Event>
    ghost var base: seq<Event>  // the log when the reconcile in progress began
    ghost var start: nat        // and the number of calls made by then

    constructor (conf: Config, services: map<Key, Service>, secrets: Secrets, pods: map<Key, Pod>,
                 endpoints: map<Key, Endpoints>, turns: seq<Turn<Event>>)
      ensures State() == Run(init, log) && log == [] && this.turns == turns
      ensures init == World(conf, services, secrets, pods, endpoints, TasksOf(services), map[])
    {
      this.conf, this.services, this.secrets, this.pods, this.endpoints := conf, services, secrets, pods, endpoints;
      this.dirty, this.active := TasksOf(services), map[];
      this.turns, this.calls, this.log, this.base, this.start := turns, 0, [], [], 0;
      this.init := World(conf, services, secrets, pods, endpoints, TasksOf(services), map[]);
    }

    function State(): World
      reads this
    {
      World(conf, services, secrets, pods, endpoints, dirty, active)
    }

    function TurnAt(n: nat): Turn<Event> {
      if n < |turns| then turns[n] else Turn([], Ok)
    }

    /** In these turns the scheduled environment does not act in the name of `t` nor restart the operator. */
    ghost predicate Undisturbed(t: Task, from: nat, to: nat) {
      forall n: nat, e | from <= n < to && e in TurnAt(n).others :: Harmless(e, t)
    }

    ghost predicate Scheduled(from: nat, to: nat, e: Event) {
      exists n: nat :: from <= n < to && e in TurnAt(n).others
    }

    ghost predicate Drawn(from: nat, to: nat, out: Outcome) {
      exists n: nat :: from <= n < to && TurnAt(n).out == out
    }

    /** A call of `t` that ended as one of these turns says, or an event of others in one of them. */
    ghost predicate Expected(t: Task, from: nat, to: nat, e: Event) {
      (e.Call? && e.t == t && Drawn(from, to, e.out)) || Scheduled(from, to, e)
    }

    /** After `before`, the log holds only calls of `t` and scheduled events of others. */
    ghost predicate GrownFrom(before: seq<Event>, now: seq<Event>, t: Task, from: nat, to: nat) {
      before <= now && forall e | e in now[|before|..] :: Expected(t, from, to, e)
    }

    /** So it is since the reconcile of `t` began, counting the turns taken since and no others. */
    ghost predicate Logged(t: Task)
      reads this`start, this`calls, this`base, this`log
    {
      start <= calls && GrownFrom(base, log, t, start, calls)
    }

    /** During a reconcile of `t`, which takes at most nine turns: the cluster is where the logged run leads. */
    ghost predicate Valid(t: Task)
      reads this
    {
      Undisturbed(t, calls, start + MAX_CALLS) && Logged(t) && State() == Run(init, log)
    }

    /** The reconcile is about to make this call, or, once it is `drawn`, about to see its reply; the turns
        left to it suffice. */
    ghost predicate At(t: Task, pc: Pc, drawn: nat)
      reads this
    {
      Valid(t) && t in active && active[t] == pc && calls + CallsLeft(pc) <= start + MAX_CALLS + drawn
    }

    ghost predicate AtPc(t: Task, pc: Pc)
      reads this
    {
      At(t, pc, 0)
    }

    /** The reconcile of `t` is over. */
    ghost predicate Over(t: Task, err: bool)
      reads this
    {
      Valid(t) && t !in active && Returned(init, log, t, err) && calls <= start + MAX_CALLS
    }

    lemma LogGrows(before: seq<Event>, now: seq<Event>, more: seq<Event>, t: Task, from: nat, to: nat, to': nat)
      requires GrownFrom(before, now, t, from, to) && to <= to' && forall e | e in more :: Expected(t, from, to', e)
      ensures GrownFrom(before, now + more, t, from, to')
    {
      assert (now + more)[|before|..] == now[|before|..] + more;
      forall e | e in now[|before|..] ensures Expected(t, from, to', e) {
        assert Expected(t, from, to, e);
      }
    }

    lemma TurnIsHarmless(t: Task, e: Event)
      requires Undisturbed(t, calls, start + MAX_CALLS) && start <= calls < start + MAX_CALLS && e in TurnAt(calls).others
      ensures Harmless(e, t) && Expected(t, start, calls + 1, e)
    {
    }

    lemma OthersRun(t: Task, others: seq<Event>)
      requires Valid(t) && t in active && calls < start + MAX_CALLS && others == TurnAt(calls).others
      ensures
        var w := Run(State(), others);
        w == Run(init, log + others) && w.conf == conf && t in w.active && w.active[t] == active[t]
      ensures GrownFrom(base, log + others, t, start, calls + 1)
    {
      forall e | e in others ensures Harmless(e, t) && Expected(t, start, calls + 1, e) {
        TurnIsHarmless(t, e);
      }
      OthersLeaveTask(State(), others, t);
      RunConcat(init, log, others);
      LogGrows(base, log, others, t, start, calls, calls + 1);
    }

    /** The tables as they are in `w`. */
    method Become(w: World)
      modifies this`services, this`secrets, this`pods, this`endpoints, this`dirty, this`active
      requires w.conf == conf
      ensures State() == w
    {
      services, secrets, pods := w.services, w.secrets, w.pods;
      endpoints, dirty, active := w.endpoints, w.dirty, w.active;
    }

    /** Others act, then the next call is decided. */
    method Others(t: Task) returns (out: Outcome)
      requires t in active && AtPc(t, active[t])
      modifies this`services, this`secrets, this`pods, this`endpoints, this`dirty, this`active, this`log, this`calls
      ensures At(t, old(active[t]), 1) && Drawn(start, calls, out)
    {
      var others := TurnAt(calls).others;
      OthersRun(t, others);
      out := TurnAt(calls).out;
      Become(Run(State(), others));
      calls, log := calls + 1, log + others;
    }

    /** The call just made and the state it left are a protocol step that continues at `next`. */
    ghost predicate Stepped(t: Task, out: Outcome, next: Next)
      reads this
    {
      && Undisturbed(t, calls, start + MAX_CALLS) && Logged(t) && Drawn(start, calls, out)
      && calls + (if next.Goto? then CallsLeft(next.pc) else 0) <= start + MAX_CALLS
      && var w := Run(init, log);
         && w.conf == conf && t in w.active
         && React(w.conf, t, ViewOf(w, t), w.active[t], out).next == next
         && Apply(w, Call(t, out)) == Finish(State(), t, next)
    }

    method Proceed(t: Task, ghost out: Outcome, pc: Pc)
      requires Stepped(t, out, Goto(pc))
      modifies this`active, this`log
      ensures AtPc(t, pc)
    {
      RunSnoc(init, log, Call(t, out));
      LogGrows(base, log, [Call(t, out)], t, start, calls, calls);
      active := active[t := pc];
      log := log + [Call(t, out)];
    }

    method Leave(t: Task, ghost out: Outcome, err: bool)
      requires Stepped(t, out, Return(!err))
      modifies this`active, this`dirty, this`log
      ensures Over(t, err)
    {
      RunSnoc(init, log, Call(t, out));
      LogGrows(base, log, [Call(t, out)], t, start, calls, calls);
      ghost var before := log;
      active := active - {t};
      if err {
        dirty := dirty + {t};
      }
      log := log + [Call(t, out)];
      assert log[..|log| - 1] == before;
    }

    // ---------- API calls ----------

    method GetService(t: Task) returns (reply: Reply, svc: Option<Service>, ghost out: Outcome)
      requires t in active && AtPc(t, active[t])
      modifies this`services, this`secrets, this`pods, this`endpoints, this`dirty, this`active, this`log, this`calls
      ensures At(t, old(active[t]), 1) && Drawn(start, calls, out)
      ensures reply == (if out != Ok then Failed else if t.key in services then Success else NotFound)
      ensures svc == Lookup(services, t.key)
    {
      var o := Others(t);
      out := o;
      svc := Lookup(services, t.key);
      reply := if o != Ok then Failed else if svc.Some? then Success else NotFound;
    }

    method GetPod(t: Task) returns (reply: Reply, pod: Option<Pod>, ghost out: Outcome)
      requires t in active && AtPc(t, active[t])
      modifies this`services, this`secrets, this`pods, this`endpoints, this`dirty, this`active, this`log, this`calls
      ensures At(t, old(active[t]), 1) && Drawn(start, calls, out)
      ensures reply == (if out != Ok then Failed else if PodKey(t) in pods then Success else NotFound)
      ensures pod == Lookup(pods, PodKey(t))
    {
      var o := Others(t);
      out := o;
      pod := Lookup(pods, PodKey(t));
      reply := if o != Ok then Failed else if pod.Some? then Success else NotFound;
    }

    method GetEndpoints(t: Task) returns (reply: Reply, ep: Option<Endpoints>, ghost out: Outcome)
      requires t in active && AtPc(t, active[t])
      modifies this`services, this`secrets, this`pods, this`endpoints, this`dirty, this`active, this`log, this`calls
      ensures At(t, old(active[t]), 1) && Drawn(start, calls, out)
      ensures reply == (if out != Ok then Failed else if t.key in endpoints then Success else NotFound)
      ensures ep == Lookup(endpoints, t.key)
    {
      var o := Others(t);
      out := o;
      ep := Lookup(endpoints, t.key);
      reply := if o != Ok then Failed else if ep.Some? then Success else NotFound;
    }

    method GetSecretValue(t: Task, svc: Service, ns: string) returns (value: Option<string>, ghost out: Outcome)
      requires t in active && AtPc(t, active[t])
      modifies this`services, this`secrets, this`pods, this`endpoints, this`dirty, this`active, this`log, this`calls
      ensures At(t, old(active[t]), 1) && Drawn(start, calls, out)
      ensures value == ReadSecret(conf, svc, secrets, ns, out == Ok)
    {
      var o := Others(t);
      out := o;
      value := None;
      if o == Ok {
        var key := Key(ns, SecretName(conf, svc));
        if key in secrets && SecretKey(conf, svc) in secrets[key] {
          value := Some(secrets[key][SecretKey(conf, svc)]);
        }
      }
    }

    /** Deletes the pod of `t`; an applied failure deletes it all the same. */
    method DeletePod(t: Task) returns (reply: Reply, ghost out: Outcome)
      requires AtPc(t, CleanupDelete)
      modifies this`services, this`secrets, this`pods, this`endpoints, this`dirty, this`active, this`log, this`calls
      ensures Stepped(t, out, Return(reply == Success))
    {
      var o := Others(t);
      out := o;
      ghost var w := State();
      reply := if PodKey(t) !in pods then NotFound else if o != Ok then Failed else Success;
      if PodKey(t) !in pods || o == Lost {
        ReadStep(w, t, out, Return(false));
      } else {
        pods := pods - {PodKey(t)};
        PodWritten(w, t, out, None, Return(out == Ok), State());
      }
    }

    method CreatePod(t: Task, spec: PodSpec, ghost svc: Service, ghost netEnv: seq<EnvVar>)
      returns (reply: Reply, ghost out: Outcome)
      requires AtPc(t, PodCreate(svc, netEnv)) && spec == BuildPod(conf, t.ctl, t.key, svc, netEnv)
      modifies this`services, this`secrets, this`pods, this`endpoints, this`dirty, this`active, this`log, this`calls
      ensures Stepped(t, out, if reply == Success then AfterEnsure(t, svc) else Return(false))
    {
      var o := Others(t);
      out := o;
      ghost var w := State();
      reply := StorePod(PodKey(t), Pod(spec, Pending, ""), o);
      PodStepped(t, out, svc, netEnv, w);
    }

    /** The store refuses a pod whose name is taken. */
    method StorePod(key: Key, pod: Pod, out: Outcome) returns (reply: Reply)
      modifies this`pods
      ensures pods == if key in old(pods) || out == Lost then old(pods) else old(pods)[key := pod]
      ensures reply == if key in old(pods) then AlreadyExists else if out != Ok then Failed else Success
    {
      reply := if key in pods then AlreadyExists else if out != Ok then Failed else Success;
      if key !in pods && out != Lost {
        pods := pods[key := pod];
      }
    }

    lemma PodStepped(t: Task, out: Outcome, svc: Service, netEnv: seq<EnvVar>, w: World)
      requires w == Run(init, log) && w.conf == conf && t in w.active && w.active[t] == PodCreate(svc, netEnv)
      requires Undisturbed(t, calls, start + MAX_CALLS) && Logged(t) && Drawn(start, calls, out)
      requires calls + CallsLeft(PodCreate(svc, netEnv)) <= start + MAX_CALLS + 1
      requires State() == if PodKey(t) in w.pods || out == Lost then w
                          else w.(pods := w.pods[PodKey(t) := NewPod(conf, t, svc, netEnv)])
      ensures Stepped(t, out, if PodKey(t) !in w.pods && out == Ok then AfterEnsure(t, svc) else Return(false))
    {
      PodCreated(w, t, svc, netEnv, out, State());
    }

    method CreateEndpoints(t: Task, subsets: seq<Subset>, ghost svc: Service, ghost pod: Pod)
      returns (reply: Reply, ghost out: Outcome)
      requires t.ctl.Egress? && AtPc(t, EndpointsCreate(svc, pod)) && subsets == ProxySubsets(t, svc, pod)
      modifies this`services, this`secrets, this`pods, this`endpoints, this`dirty, this`active, this`log, this`calls
      ensures Stepped(t, out, Return(reply == Success))
    {
      var o := Others(t);
      out := o;
      ghost var w := State();
      reply := if t.key in endpoints then AlreadyExists else if o != Ok then Failed else Success;
      if t.key in endpoints || o == Lost {
        ReadStep(w, t, out, Return(false));
      } else {
        endpoints := endpoints[t.key := Endpoints(subsets, 0)];
        EndpointsWritten(w, t, out, Some(Endpoints(subsets, 0)), Return(out == Ok), State());
      }
    }

    /** Optimistic locking: the update is refused if the object is no longer the one that was read. */
    method UpdateEndpoints(t: Task, seen: Endpoints, subsets: seq<Subset>, ghost svc: Service, ghost pod: Pod)
      returns (reply: Reply, ghost out: Outcome)
      requires t.ctl.Egress? && AtPc(t, EndpointsUpdate(svc, pod, seen)) && subsets == ProxySubsets(t, svc, pod)
      modifies this`services, this`secrets, this`pods, this`endpoints, this`dirty, this`active, this`log, this`calls
      ensures Stepped(t, out, Return(reply == Success))
    {
      var o := Others(t);
      out := o;
      ghost var w := State();
      reply := if t.key !in endpoints then NotFound
               else if endpoints[t.key].rev != seen.rev then Conflict
               else if o != Ok then Failed else Success;
      if t.key !in endpoints || endpoints[t.key].rev != seen.rev || o == Lost {
        ReadStep(w, t, out, Return(false));
      } else {
        var ep := endpoints[t.key];
        if ep.subsets != subsets {
          ep := Endpoints(subsets, ep.rev + 1);
        }
        endpoints := endpoints[t.key := ep];
        EndpointsWritten(w, t, out, Some(ep), Return(out == Ok), State());
      }
    }

    // ---------- The reconcilers ----------

    /** The pod of a deleted or disabled Service is removed. */
    method CleanupProxyPod(t: Task) returns (err: bool)
      requires AtPc(t, CleanupGet)
      modifies this`services, this`secrets, this`pods, this`endpoints, this`dirty, this`active, this`log, this`calls
      ensures Over(t, err)
    {
      var reply, _, out := GetPod(t);
      if reply == NotFound {
        ReadStep(State(), t, out, Return(true));
        Leave(t, out, false);
        return false;
      }
      if reply != Success {
        ReadStep(State(), t, out, Return(false));
        Leave(t, out, true);
        return true;
      }
      ReadStep(State(), t, out, Goto(CleanupDelete));
      Proceed(t, out, CleanupDelete);
      reply, out := DeletePod(t);
      err := reply != Success;
      Leave(t, out, err);
    }

    /** First look-up of the token: the Service's own namespace, then the operator's. */
    method GetNetclientToken(t: Task, svc: Service) returns (token: string)
      requires AtPc(t, TokenOwn(svc))
      modifies this`services, this`secrets, this`pods, this`endpoints, this`dirty, this`active, this`log, this`calls
      ensures AtPc(t, EnvOwn(svc, token))
    {
      var value := ReadOwnSecret(t, svc);
      if value.Some? {
        return value.value;
      }
      token := ReadOperatorSecret(t, svc);
    }

    method ReadOwnSecret(t: Task, svc: Service) returns (value: Option<string>)
      requires AtPc(t, TokenOwn(svc))
      modifies this`services, this`secrets, this`pods, this`endpoints, this`dirty, this`active, this`log, this`calls
      ensures AtPc(t, if value.Some? then EnvOwn(svc, value.value) else TokenOperator(svc))
    {
      var found, out := GetSecretValue(t, svc, t.key.ns);
      value := found;
      ghost var pc := if value.Some? then EnvOwn(svc, value.value) else TokenOperator(svc);
      ReadStep(State(), t, out, Goto(pc));
      if value.Some? {
        Proceed(t, out, EnvOwn(svc, value.value));
      } else {
        Proceed(t, out, TokenOperator(svc));
      }
    }

    method ReadOperatorSecret(t: Task, svc: Service) returns (token: string)
      requires AtPc(t, TokenOperator(svc))
      modifies this`services, this`secrets, this`pods, this`endpoints, this`dirty, this`active, this`log, this`calls
      ensures AtPc(t, EnvOwn(svc, token))
    {
      var value, out := GetSecretValue(t, svc, OperatorNamespace(conf));
      token := "";
      if value.Some? {
        token := value.value;
      }
      ReadStep(State(), t, out, Goto(EnvOwn(svc, token)));
      Proceed(t, out, EnvOwn(svc, token));
    }

    /** Second look-up: a reference if the own namespace has the secret now, else the value found before. */
    method BuildNetclientEnvVars(t: Task, svc: Service, tokenValue: string) returns (envVars: seq<EnvVar>)
      requires AtPc(t, EnvOwn(svc, tokenValue))
      modifies this`services, this`secrets, this`pods, this`endpoints, this`dirty, this`active, this`log, this`calls
      ensures AtPc(t, PodCreate(svc, envVars))
    {
      envVars := [Inline("DAEMON", "on"), Inline("LOG_LEVEL", "info")];
      var value, out := GetSecretValue(t, svc, t.key.ns);
      if value.Some? {
        envVars := envVars + [FromSecret("TOKEN", SecretName(conf, svc), SecretKey(conf, svc))];
      } else if tokenValue != "" {
        envVars := envVars + [Inline("TOKEN", tokenValue)];
      } else {
        envVars := envVars + [Inline("TOKEN", "")];
      }
      assert envVars == NetclientEnv(conf, svc, value.Some?, tokenValue);
      ReadStep(State(), t, out, Goto(PodCreate(svc, envVars)));
      Proceed(t, out, PodCreate(svc, envVars));
    }

    /** Makes sure the pod exists; without an error, egress then goes on to the Endpoints. */
    method EnsureProxyPod(t: Task, svc: Service) returns (err: bool)
      requires AtPc(t, PodGet(svc))
      modifies this`services, this`secrets, this`pods, this`endpoints, this`dirty, this`active, this`log, this`calls
      ensures if !err && t.ctl.Egress? then AtPc(t, EndpointsPodGet(svc)) else Over(t, err)
    {
      var reply, _, out := GetPod(t);
      if reply == Success {
        ReadStep(State(), t, out, AfterEnsure(t, svc));
        GoAfterEnsure(t, out, svc);
        return false;
      }
      if reply != NotFound {
        ReadStep(State(), t, out, Return(false));
        Leave(t, out, true);
        return true;
      }
      ReadStep(State(), t, out, Goto(TokenOwn(svc)));
      Proceed(t, out, TokenOwn(svc));
      var token := GetNetclientToken(t, svc);
      var envVars := BuildNetclientEnvVars(t, svc, token);
      var spec := BuildProxyPod(conf, t.ctl, t.key, svc, envVars);
      reply, out := CreatePod(t, spec, svc, envVars);
      if reply != Success {
        Leave(t, out, true);
        return true;
      }
      GoAfterEnsure(t, out, svc);
      return false;
    }

    method GoAfterEnsure(t: Task, ghost out: Outcome, svc: Service)
      requires Stepped(t, out, AfterEnsure(t, svc))
      modifies this`active, this`dirty, this`log
      ensures if t.ctl.Egress? then AtPc(t, EndpointsPodGet(svc)) else Over(t, false)
    {
      if t.ctl == Egress {
        Proceed(t, out, EndpointsPodGet(svc));
      } else {
        Leave(t, out, false);
      }
    }

    /** Points the Service's Endpoints at the proxy pod once that is running. */
    method UpdateServiceEndpoints(t: Task, svc: Service) returns (err: bool)
      requires t.ctl.Egress? && AtPc(t, EndpointsPodGet(svc))
      modifies this`services, this`secrets, this`pods, this`endpoints, this`dirty, this`active, this`log, this`calls
      ensures Over(t, err)
    {
      var reply, found, out := GetPod(t);
      if reply == NotFound {
        ReadStep(State(), t, out, Return(true));
        Leave(t, out, false);
        return false;
      }
      if reply != Success {
        ReadStep(State(), t, out, Return(false));
        Leave(t, out, true);
        return true;
      }
      var pod := found.value;
      if pod.phase != Running {
        ReadStep(State(), t, out, Return(true));
        Leave(t, out, false);
        return false;
      }
      ReadStep(State(), t, out, Goto(EndpointsGet(svc, pod)));
      Proceed(t, out, EndpointsGet(svc, pod));
      err := WriteEndpoints(t, svc, pod);
    }

    method WriteEndpoints(t: Task, svc: Service, pod: Pod) returns (err: bool)
      requires t.ctl.Egress? && AtPc(t, EndpointsGet(svc, pod))
      modifies this`services, this`secrets, this`pods, this`endpoints, this`dirty, this`active, this`log, this`calls
      ensures Over(t, err)
    {
      var found, seen := FindEndpoints(t, svc, pod);
      if !found {
        return true;
      }
      var ports := BuildEndpointPorts(svc.ports);
      var subsets := [Subset(pod.ip, PodKey(t), ports)];
      var reply;
      ghost var out;
      if seen.None? {
        reply, out := CreateEndpoints(t, subsets, svc, pod);
      } else {
        reply, out := UpdateEndpoints(t, seen.value, subsets, svc, pod);
      }
      err := reply != Success;
      Leave(t, out, err);
    }

    /** The Endpoints as they are, possibly absent, if the read does not fail. */
    method FindEndpoints(t: Task, svc: Service, pod: Pod) returns (found: bool, seen: Option<Endpoints>)
      requires t.ctl.Egress? && AtPc(t, EndpointsGet(svc, pod))
      modifies this`services, this`secrets, this`pods, this`endpoints, this`dirty, this`active, this`log, this`calls
      ensures !found ==> Over(t, true)
      ensures found ==> AtPc(t, if seen.Some? then EndpointsUpdate(svc, pod, seen.value) else EndpointsCreate(svc, pod))
    {
      var reply, ep, out := GetEndpoints(t);
      seen := ep;
      found := reply == Success || reply == NotFound;
      if !found {
        ReadStep(State(), t, out, Return(false));
        Leave(t, out, true);
      } else if reply == NotFound {
        ReadStep(State(), t, out, Goto(EndpointsCreate(svc, pod)));
        Proceed(t, out, EndpointsCreate(svc, pod));
      } else {
        ReadStep(State(), t, out, Goto(EndpointsUpdate(svc, pod, seen.value)));
        Proceed(t, out, EndpointsUpdate(svc, pod, seen.value));
      }
    }

    /** The egress reconcile of one key. */
    method ReconcileEgress(t: Task) returns (err: bool)
      requires t.ctl.Egress? && AtPc(t, Fetch)
      modifies this`services, this`secrets, this`pods, this`endpoints, this`dirty, this`active, this`log, this`calls
      ensures Over(t, err)
    {
      var reply, found, out := GetService(t);
      if reply == Failed {
        ReadStep(State(), t, out, Return(false));
        Leave(t, out, true);
        return true;
      }
      if reply == NotFound || !IsEgressEnabled(found.value) {
        ReadStep(State(), t, out, Goto(CleanupGet));
        Proceed(t, out, CleanupGet);
        err := CleanupProxyPod(t);
        return;
      }
      var svc := found.value;
      if TargetIP(svc) == "" && TargetDNS(svc) == "" {
        ReadStep(State(), t, out, Return(true));
        Leave(t, out, false);
        return false;
      }
      ReadStep(State(), t, out, Goto(PodGet(svc)));
      Proceed(t, out, PodGet(svc));
      err := EnsureProxyPod(t, svc);
      if !err {
        err := UpdateServiceEndpoints(t, svc);
      }
    }

    /** The ingress reconcile of one key. */
    method ReconcileIngress(t: Task) returns (err: bool)
      requires t.ctl.Ingress? && AtPc(t, Fetch)
      modifies this`services, this`secrets, this`pods, this`endpoints, this`dirty, this`active, this`log, this`calls
      ensures Over(t, err)
    {
      var reply, found, out := GetService(t);
      if reply == Failed {
        ReadStep(State(), t, out, Return(false));
        Leave(t, out, true);
        return true;
      }
      if reply == NotFound || !IsIngressEnabled(found.value) {
        ReadStep(State(), t, out, Goto(CleanupGet));
        Proceed(t, out, CleanupGet);
        err := CleanupProxyPod(t);
        return;
      }
      var svc := found.value;
      if IsEgressEnabled(svc) {
        ReadStep(State(), t, out, Return(true));
        Leave(t, out, false);
        return false;
      }
      ReadStep(State(), t, out, Goto(PodGet(svc)));
      Proceed(t, out, PodGet(svc));
      err := EnsureProxyPod(t, svc);
    }

    /** A worker takes a queued task that nobody works on. */
    method Take(t: Task)
      requires Undisturbed(t, calls, calls + MAX_CALLS) && State() == Run(init, log)
      requires t in dirty && t !in active
      modifies this`dirty, this`active, this`log, this`base, this`start
      ensures AtPc(t, Fetch) && base == log == old(log) + [Dequeue(t)] && start == old(calls)
    {
      RunSnoc(init, log, Dequeue(t));
      DequeueStep(State(), t);
      dirty := dirty - {t};
      active := active[t := Fetch];
      log := log + [Dequeue(t)];
      base, start := log, calls;
      assert log[|base|..] == [];
    }

    /** One worker turn: take a task, reconcile it, and report. What happens from here to the return is a
        run of the protocol made of the dequeue, calls in its own name and what others do in the at most nine
        turns that it takes; so every theorem about runs applies to the state it leaves. */
    method Work(t: Task) returns (err: bool)
      requires Undisturbed(t, calls, calls + MAX_CALLS) && State() == Run(init, log)
      requires t in dirty && t !in active
      modifies this
      ensures Over(t, err) && base == old(log) + [Dequeue(t)] && start == old(calls)
    {
      Take(t);
      match t.ctl
      case Egress => err := ReconcileEgress(t);
      case Ingress => err := ReconcileIngress(t);
    }
  }
}

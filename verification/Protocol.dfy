/** The two controllers as a transition system over the shared store. `React` is one API call of one
    reconcile; `Apply` is one step of the whole cluster; a run is a sequence of events. */
module Protocol {
  import opened Kube
  import opened ProxyPod

  /** One work item: one controller's work on one Service key. */
  datatype Task = Task(ctl: Ctl, key: Key)

  /** Where a reconcile stands: the call it makes next, with the local variables that call needs. */
  datatype Pc =
    | Fetch
    | CleanupGet
    | CleanupDelete
    | PodGet(svc: Service)
    | TokenOwn(svc: Service)
    | TokenOperator(svc: Service)
    | EnvOwn(svc: Service, token: string)
    | PodCreate(svc: Service, netEnv: seq<EnvVar>)
    | EndpointsPodGet(svc: Service)
    | EndpointsGet(svc: Service, pod: Pod)
    | EndpointsCreate(svc: Service, pod: Pod)
    | EndpointsUpdate(svc: Service, pod: Pod, seen: Endpoints)

  /** The part of the store a task can touch. */
  datatype View = View(svc: Option<Service>, secrets: Secrets, pod: Option<Pod>, ep: Option<Endpoints>)

  datatype Next = Goto(pc: Pc) | Return(ok: bool)

  datatype Reaction = Reaction(view: View, next: Next)

  function Suffix(ctl: Ctl): string {
    match ctl
    case Egress => "-egress-proxy"
    case Ingress => "-ingress-proxy"
  }

  function PodKey(t: Task): Key {
    Key(t.key.ns, t.key.name + Suffix(t.ctl))
  }

  /** Proxy pods live beside their Service and are called after it and their controller. */
  lemma PodNames(k: Key)
    ensures PodKey(Task(Egress, k)) == Key(k.ns, k.name + "-egress-proxy")
    ensures PodKey(Task(Ingress, k)) == Key(k.ns, k.name + "-ingress-proxy")
  {
  }

  lemma SuffixesDiffer(a: string, b: string)
    ensures a + Suffix(Egress) != b + Suffix(Ingress)
  {
    var x, y := a + Suffix(Egress), b + Suffix(Ingress);
    assert x[|x| - 13] == '-';
    assert y[|y| - 13] == 'i';
  }

  /** Pod names never clash, whatever the Services are called: neither between two Services of one
      controller nor between the controllers. */
  lemma PodKeyInjective(t: Task, u: Task)
    ensures PodKey(t) == PodKey(u) <==> t == u
  {
    var a, b := t.key.name, u.key.name;
    if t.ctl == u.ctl {
      assert (a + Suffix(t.ctl))[..|a + Suffix(t.ctl)| - |Suffix(t.ctl)|] == a;
      assert (b + Suffix(t.ctl))[..|b + Suffix(t.ctl)| - |Suffix(t.ctl)|] == b;
    } else if t.ctl.Egress? {
      SuffixesDiffer(a, b);
    } else {
      SuffixesDiffer(b, a);
    }
  }

  function NewPod(conf: Config, t: Task, svc: Service, netEnv: seq<EnvVar>): Pod {
    Pod(BuildPod(conf, t.ctl, t.key, svc, netEnv), Pending, "")
  }

  function ProxySubsets(t: Task, svc: Service, pod: Pod): seq<Subset> {
    [Subset(pod.ip, PodKey(t), EndpointPorts(svc.ports))]
  }

  /** The object an Endpoints update leaves: an update that changes nothing keeps the version. */
  function Updated(ep: Endpoints, subsets: seq<Subset>): Endpoints {
    if ep.subsets == subsets then ep else Endpoints(subsets, ep.rev + 1)
  }

  /** After a pod is known to exist: egress goes on to the Endpoints, ingress is done. */
  function AfterEnsure(t: Task, svc: Service): Next {
    if t.ctl.Egress? then Goto(EndpointsPodGet(svc)) else Return(true)
  }

  /** One API call of a reconcile, with the branches taken on its reply. */
  function React(conf: Config, t: Task, v: View, pc: Pc, out: Outcome): Reaction {
    match pc
    case Fetch =>
      if out != Ok then Reaction(v, Return(false))
      else (match Decide(t.ctl, v.svc)
            case Remove => Reaction(v, Goto(CleanupGet))
            case Skip => Reaction(v, Return(true))
            case Ensure(svc) => Reaction(v, Goto(PodGet(svc))))
    case CleanupGet =>
      if out != Ok then Reaction(v, Return(false))
      else if v.pod.None? then Reaction(v, Return(true))
      else Reaction(v, Goto(CleanupDelete))
    case CleanupDelete =>
      if v.pod.None? || out == Lost then Reaction(v, Return(false))
      else Reaction(v.(pod := None), Return(out == Ok))
    case PodGet(svc) =>
      if out != Ok then Reaction(v, Return(false))
      else if v.pod.Some? then Reaction(v, AfterEnsure(t, svc))
      else Reaction(v, Goto(TokenOwn(svc)))
    case TokenOwn(svc) =>
      (match ReadSecret(conf, svc, v.secrets, t.key.ns, out == Ok)
       case Some(token) => Reaction(v, Goto(EnvOwn(svc, token)))
       case None => Reaction(v, Goto(TokenOperator(svc))))
    case TokenOperator(svc) =>
      Reaction(v, Goto(EnvOwn(svc, OrEmpty(ReadSecret(conf, svc, v.secrets, OperatorNamespace(conf), out == Ok)))))
    case EnvOwn(svc, token) =>
      var found := ReadSecret(conf, svc, v.secrets, t.key.ns, out == Ok).Some?;
      Reaction(v, Goto(PodCreate(svc, NetclientEnv(conf, svc, found, token))))
    case PodCreate(svc, netEnv) =>
      if v.pod.Some? || out == Lost then Reaction(v, Return(false))
      else Reaction(v.(pod := Some(NewPod(conf, t, svc, netEnv))),
                    if out == Ok then AfterEnsure(t, svc) else Return(false))
    case EndpointsPodGet(svc) =>
      if out != Ok then Reaction(v, Return(false))
      else if v.pod.None? || v.pod.value.phase != Running then Reaction(v, Return(true))
      else Reaction(v, Goto(EndpointsGet(svc, v.pod.value)))
    case EndpointsGet(svc, pod) =>
      if out != Ok then Reaction(v, Return(false))
      else (match v.ep
            case None => Reaction(v, Goto(EndpointsCreate(svc, pod)))
            case Some(seen) => Reaction(v, Goto(EndpointsUpdate(svc, pod, seen))))
    case EndpointsCreate(svc, pod) =>
      if v.ep.Some? || out == Lost then Reaction(v, Return(false))
      else Reaction(v.(ep := Some(Endpoints(ProxySubsets(t, svc, pod), 0))), Return(out == Ok))
    case EndpointsUpdate(svc, pod, seen) =>
      if v.ep.None? || v.ep.value.rev != seen.rev || out == Lost then Reaction(v, Return(false))
      else Reaction(v.(ep := Some(Updated(v.ep.value, ProxySubsets(t, svc, pod)))), Return(out == Ok))
  }

  /** The cluster: process configuration, the four tables, and the work queues of both controllers.
      `dirty` holds the items queued (or with a watch event under way), `active` those in progress. */
  datatype World = World(
    conf: Config,
    services: map<Key, Service>, secrets: Secrets, pods: map<Key, Pod>, endpoints: map<Key, Endpoints>,
    dirty: set<Task>, active: map<Task, Pc>)

  datatype Event =
    | PutService(key: Key, svc: Service)
    | DropService(key: Key)
    | SetSecret(key: Key, data: Option<map<string, string>>)
    | Kubelet(podKey: Key, phase: Phase, ip: string)
    | Evict(podKey: Key)
    | EditEndpoints(key: Key, ep: Option<Endpoints>)
    | Requeue(t: Task)
    | Restart
    | Dequeue(t: Task)
    | Call(t: Task, out: Outcome)

  function ViewOf(w: World, t: Task): View {
    View(Lookup(w.services, t.key), w.secrets, Lookup(w.pods, PodKey(t)),
         if t.ctl.Egress? then Lookup(w.endpoints, t.key) else None)
  }

  function WithView(w: World, t: Task, v: View): World {
    w.(pods := Store(w.pods, PodKey(t), v.pod),
       endpoints := if t.ctl.Egress? then Store(w.endpoints, t.key, v.ep) else w.endpoints)
  }

  function BothTasks(k: Key): set<Task> {
    {Task(Egress, k), Task(Ingress, k)}
  }

  /** What a returning reconcile leaves of its task: nil forgets it, an error queues it again. */
  function Finish(w: World, t: Task, next: Next): World {
    match next
    case Goto(pc) => w.(active := w.active[t := pc])
    case Return(ok) => w.(active := w.active - {t}, dirty := if ok then w.dirty else w.dirty + {t})
  }

  function TasksOf(services: map<Key, Service>): set<Task> {
    (set k | k in services :: Task(Egress, k)) + (set k | k in services :: Task(Ingress, k))
  }

  function SetStatus(pods: map<Key, Pod>, pk: Key, phase: Phase, ip: string): map<Key, Pod> {
    if pk in pods then pods[pk := pods[pk].(phase := phase, ip := ip)] else pods
  }

  function Apply(w: World, e: Event): World {
    match e
    case PutService(k, svc) => w.(services := w.services[k := svc], dirty := w.dirty + BothTasks(k))
    case DropService(k) => w.(services := w.services - {k}, dirty := w.dirty + BothTasks(k))
    case SetSecret(k, data) => w.(secrets := Store(w.secrets, k, data))
    case Kubelet(pk, phase, ip) => w.(pods := SetStatus(w.pods, pk, phase, ip))
    case Evict(pk) => w.(pods := w.pods - {pk})
    case EditEndpoints(k, ep) => w.(endpoints := Store(w.endpoints, k, ep))
    case Requeue(t) => w.(dirty := w.dirty + {t})
    case Restart => w.(dirty := TasksOf(w.services), active := map[])
    case Dequeue(t) =>
      if t in w.dirty && t !in w.active then w.(dirty := w.dirty - {t}, active := w.active[t := Fetch]) else w
    case Call(t, out) =>
      if t !in w.active then w
      else
        var r := React(w.conf, t, ViewOf(w, t), w.active[t], out);
        Finish(WithView(w, t, r.view), t, r.next)
  }

  function Run(w: World, es: seq<Event>): World {
    if es == [] then w else Apply(Run(w, es[..|es| - 1]), es[|es| - 1])
  }

  lemma RunSnoc(w: World, es: seq<Event>, e: Event)
    ensures Run(w, es + [e]) == Apply(Run(w, es), e)
  {
    assert (es + [e])[..|es + [e]| - 1] == es;
  }

  lemma {:induction false} RunConcat(w: World, es: seq<Event>, es': seq<Event>)
    ensures Run(w, es + es') == Run(Run(w, es), es')
  {
    if es' == [] {
      assert es + es' == es;
    } else {
      var p := es'[..|es'| - 1];
      assert (es + es')[..|es + es'| - 1] == es + p;
      RunConcat(w, es, p);
    }
  }

  // ---------- A cluster is a product of independent cells ----------

  /** Everything that concerns one task: its view of the store, whether it is queued, where it stands. */
  datatype Cell = Cell(view: View, dirty: bool, pc: Option<Pc>)

  function CellOf(w: World, t: Task): Cell {
    Cell(ViewOf(w, t), t in w.dirty, Lookup(w.active, t))
  }

  function CellCall(conf: Config, t: Task, c: Cell, out: Outcome): Cell {
    if c.pc.None? then c
    else
      var r := React(conf, t, c.view, c.pc.value, out);
      match r.next
      case Goto(pc) => Cell(r.view, c.dirty, Some(pc))
      case Return(ok) => Cell(r.view, c.dirty || !ok, None)
  }

  function WithStatus(pod: Option<Pod>, phase: Phase, ip: string): Option<Pod> {
    match pod
    case None => None
    case Some(p) => Some(p.(phase := phase, ip := ip))
  }

  /** What one event does to one cell. Events about other keys and calls of other tasks do nothing. */
  function CellApply(conf: Config, t: Task, c: Cell, e: Event): Cell {
    match e
    case PutService(k, svc) => if k == t.key then c.(view := c.view.(svc := Some(svc)), dirty := true) else c
    case DropService(k) => if k == t.key then c.(view := c.view.(svc := None), dirty := true) else c
    case SetSecret(k, data) => c.(view := c.view.(secrets := Store(c.view.secrets, k, data)))
    case Kubelet(pk, phase, ip) =>
      if pk == PodKey(t) then c.(view := c.view.(pod := WithStatus(c.view.pod, phase, ip))) else c
    case Evict(pk) => if pk == PodKey(t) then c.(view := c.view.(pod := None)) else c
    case EditEndpoints(k, ep) => if k == t.key && t.ctl.Egress? then c.(view := c.view.(ep := ep)) else c
    case Requeue(u) => if u == t then c.(dirty := true) else c
    case Restart => Cell(c.view, c.view.svc.Some?, None)
    case Dequeue(u) => if u == t && c.dirty && c.pc.None? then Cell(c.view, false, Some(Fetch)) else c
    case Call(u, out) => if u == t then CellCall(conf, t, c, out) else c
  }

  /** A call writes at most its own pod and, for egress, its own Endpoints. */
  lemma ReactFootprint(conf: Config, t: Task, v: View, pc: Pc, out: Outcome)
    requires t.ctl.Ingress? ==> v.ep.None? && !OnEndpoints(pc)
    ensures
      var r := React(conf, t, v, pc, out);
      && r.view.svc == v.svc && r.view.secrets == v.secrets
      && (t.ctl.Ingress? ==> r.view.ep.None? && (r.next.Goto? ==> !OnEndpoints(r.next.pc)))
  {
  }

  predicate OnEndpoints(pc: Pc) {
    pc.EndpointsPodGet? || pc.EndpointsGet? || pc.EndpointsCreate? || pc.EndpointsUpdate?
  }

  /** The ingress controller never reaches the Endpoints calls. */
  ghost predicate WellFormed(w: World) {
    forall t | t in w.active && t.ctl.Ingress? :: !OnEndpoints(w.active[t])
  }

  lemma FrameOther(w: World, u: Task, v: View, next: Next, t: Task)
    requires t != u
    ensures CellOf(Finish(WithView(w, u, v), u, next), t) == CellOf(w, t)
  {
    PodKeyInjective(t, u);
    if t.ctl.Egress? && u.ctl.Egress? {
      assert t.key != u.key;
    }
  }

  lemma FrameOwn(w: World, t: Task, v: View, next: Next)
    requires v.svc == Lookup(w.services, t.key) && v.secrets == w.secrets && (t.ctl.Ingress? ==> v.ep.None?)
    ensures
      var c := CellOf(Finish(WithView(w, t, v), t, next), t);
      c == match next
           case Goto(pc) => Cell(v, t in w.dirty, Some(pc))
           case Return(ok) => Cell(v, t in w.dirty || !ok, None)
  {
  }

  lemma CallStep(w: World, u: Task, out: Outcome, t: Task)
    requires WellFormed(w)
    ensures CellOf(Apply(w, Call(u, out)), t) == CellApply(w.conf, t, CellOf(w, t), Call(u, out))
  {
    if u in w.active {
      var r := React(w.conf, u, ViewOf(w, u), w.active[u], out);
      assert Apply(w, Call(u, out)) == Finish(WithView(w, u, r.view), u, r.next);
      if u == t {
        ReactFootprint(w.conf, u, ViewOf(w, u), w.active[u], out);
        FrameOwn(w, u, r.view, r.next);
      } else {
        FrameOther(w, u, r.view, r.next, t);
      }
    }
  }

  lemma ServiceStep(w: World, e: Event, t: Task)
    requires e.PutService? || e.DropService?
    ensures CellOf(Apply(w, e), t) == CellApply(w.conf, t, CellOf(w, t), e)
  {
    assert t == Task(t.ctl, t.key);
    assert t in BothTasks(e.key) <==> e.key == t.key by { match t.ctl case Egress => case Ingress => }
  }

  lemma QueueStep(w: World, e: Event, t: Task)
    requires e.Requeue? || e.Dequeue? || e.Restart?
    ensures CellOf(Apply(w, e), t) == CellApply(w.conf, t, CellOf(w, t), e)
  {
    Member(w.services, t);
  }

  lemma StoreStep(w: World, e: Event, t: Task)
    requires e.SetSecret? || e.Kubelet? || e.Evict? || e.EditEndpoints?
    ensures CellOf(Apply(w, e), t) == CellApply(w.conf, t, CellOf(w, t), e)
  {
  }

  lemma StaysWellFormed(w: World, e: Event)
    requires WellFormed(w)
    ensures WellFormed(Apply(w, e)) && Apply(w, e).conf == w.conf
  {
    if e.Call? && e.t in w.active && e.t.ctl.Ingress? {
      ReactFootprint(w.conf, e.t, ViewOf(w, e.t), w.active[e.t], e.out);
    }
  }

  /** Every step of the cluster acts on each task's cell by the small relation above, so the two
      controllers and all keys are independent except through Services and secrets. */
  lemma CellStep(w: World, e: Event, t: Task)
    requires WellFormed(w)
    ensures CellOf(Apply(w, e), t) == CellApply(w.conf, t, CellOf(w, t), e)
  {
    match e
    case Call(u, out) => CallStep(w, u, out, t);
    case PutService(_, _) => ServiceStep(w, e, t);
    case DropService(_) => ServiceStep(w, e, t);
    case Requeue(_) => QueueStep(w, e, t);
    case Dequeue(_) => QueueStep(w, e, t);
    case Restart => QueueStep(w, e, t);
    case _ => StoreStep(w, e, t);
  }

  lemma Member(services: map<Key, Service>, t: Task)
    ensures t in TasksOf(services) <==> t.key in services
  {
    assert t == Task(t.ctl, t.key);
    match t.ctl case Egress => case Ingress =>
  }

  function CellRun(conf: Config, t: Task, c: Cell, es: seq<Event>): Cell {
    if es == [] then c else CellApply(conf, t, CellRun(conf, t, c, es[..|es| - 1]), es[|es| - 1])
  }

  lemma {:induction false} CellProduct(w: World, es: seq<Event>, t: Task)
    requires WellFormed(w)
    ensures CellOf(Run(w, es), t) == CellRun(w.conf, t, CellOf(w, t), es)
    ensures WellFormed(Run(w, es)) && Run(w, es).conf == w.conf
  {
    if es != [] {
      CellProduct(w, es[..|es| - 1], t);
      StaysWellFormed(Run(w, es[..|es| - 1]), es[|es| - 1]);
      CellStep(Run(w, es[..|es| - 1]), es[|es| - 1], t);
    }
  }
}

/** The same for the whole cluster: any interleaving of both controllers over all keys. */
module Convergence {
  import opened Kube
  import opened ProxyPod
  import opened Protocol
  import opened History
  import opened Quiescence
  import opened Drain

  predicate Drained(w: World) {
    w.dirty == {} && w.active == map[]
  }

  /** A step of the controllers themselves in which no call fails. */
  predicate DrainEvent(e: Event) {
    e.Dequeue? || (e.Call? && e.out == Ok)
  }

  predicate DrainRun(es: seq<Event>) {
    forall e | e in es :: DrainEvent(e)
  }

  // ---------- What the controllers leave alone ----------

  ghost predicate Foreign(pk: Key) {
    forall t: Task :: pk != PodKey(t)
  }

  /** Same Services, same secrets, and the same pods under names that are no proxy names. */
  ghost predicate SameSurroundings(w: World, w': World) {
    && w.conf == w'.conf && w.services == w'.services && w.secrets == w'.secrets
    && forall pk | Foreign(pk) :: Lookup(w.pods, pk) == Lookup(w'.pods, pk)
  }

  lemma SurroundingsStay(w: World, e: Event)
    requires e.Dequeue? || e.Call?
    ensures SameSurroundings(w, Apply(w, e))
  {
  }

  lemma SameTables<K, V>(m: map<K, V>, n: map<K, V>)
    requires forall k :: Lookup(m, k) == Lookup(n, k)
    ensures m == n
  {
    forall k ensures k in m <==> k in n && (k in m ==> m[k] == n[k]) {
      assert Lookup(m, k) == Lookup(n, k);
    }
  }

  lemma SamePods(w: World, w': World)
    requires SameSurroundings(w, w')
    requires forall t: Task :: CellOf(w, t) == CellOf(w', t)
    ensures w.pods == w'.pods
  {
    forall pk: Key ensures Lookup(w.pods, pk) == Lookup(w'.pods, pk) {
      if !Foreign(pk) {
        var t: Task :| pk == PodKey(t);
        assert CellOf(w, t) == CellOf(w', t);
      }
    }
    SameTables(w.pods, w'.pods);
  }

  lemma SameEndpoints(w: World, w': World)
    requires forall t: Task :: CellOf(w, t) == CellOf(w', t)
    ensures w.endpoints == w'.endpoints
  {
    forall k: Key ensures Lookup(w.endpoints, k) == Lookup(w'.endpoints, k) {
      assert CellOf(w, Task(Egress, k)) == CellOf(w', Task(Egress, k));
    }
    SameTables(w.endpoints, w'.endpoints);
  }

  lemma SameQueues(w: World, w': World)
    requires forall t: Task :: CellOf(w, t) == CellOf(w', t)
    ensures w.dirty == w'.dirty && w.active == w'.active
  {
    forall t: Task ensures (t in w.dirty <==> t in w'.dirty) && Lookup(w.active, t) == Lookup(w'.active, t) {
      assert CellOf(w, t) == CellOf(w', t);
    }
    SameTables(w.active, w'.active);
  }

  lemma SameCells(w: World, w': World)
    requires SameSurroundings(w, w')
    requires forall t: Task :: CellOf(w, t) == CellOf(w', t)
    ensures w == w'
  {
    SamePods(w, w');
    SameEndpoints(w, w');
    SameQueues(w, w');
  }

  // ---------- Confluence ----------

  lemma DrainStep(w: World, e: Event, t: Task)
    requires WellFormed(w) && DrainEvent(e)
    ensures
      var c := CellOf(w, t);
      Settle(w.conf, t, CellOf(Apply(w, e), t)) == Settle(w.conf, t, c)
  {
    CellStep(w, e, t);
    var c := CellOf(w, t);
    assert CellOf(Apply(w, e), t) == c || (!Idle(c) && CellOf(Apply(w, e), t) == Advance(w.conf, t, c));
  }

  lemma {:induction false} DrainKeepsSettled(w: World, es: seq<Event>, t: Task)
    requires WellFormed(w) && DrainRun(es)
    ensures WellFormed(Run(w, es)) && SameSurroundings(w, Run(w, es))
    ensures Settle(w.conf, t, CellOf(Run(w, es), t)) == Settle(w.conf, t, CellOf(w, t))
  {
    if es != [] {
      var p, e := es[..|es| - 1], es[|es| - 1];
      DrainKeepsSettled(w, p, t);
      StaysWellFormed(Run(w, p), e);
      DrainStep(Run(w, p), e, t);
      SurroundingsStay(Run(w, p), e);
    }
  }

  lemma DrainedIsSettled(w: World, es: seq<Event>, t: Task)
    requires WellFormed(w) && DrainRun(es) && Drained(Run(w, es))
    ensures CellOf(Run(w, es), t) == Settle(w.conf, t, CellOf(w, t))
  {
    DrainKeepsSettled(w, es, t);
  }

  /** Confluence. From any state, with any reconciles half done, all orders of working off both
      controllers' queues that reach the end reach the same cluster. */
  lemma DrainConfluence(w: World, es: seq<Event>, es': seq<Event>)
    requires WellFormed(w) && DrainRun(es) && DrainRun(es')
    requires Drained(Run(w, es)) && Drained(Run(w, es'))
    ensures Run(w, es) == Run(w, es')
  {
    forall t: Task ensures CellOf(Run(w, es), t) == CellOf(Run(w, es'), t) {
      DrainedIsSettled(w, es, t);
      DrainedIsSettled(w, es', t);
    }
    var t := Task(Egress, Key("", ""));
    DrainKeepsSettled(w, es, t);
    DrainKeepsSettled(w, es', t);
    SameCells(Run(w, es), Run(w, es'));
  }

  // ---------- Termination ----------

  predicate Enabled(w: World, e: Event) {
    match e
    case Dequeue(t) => t in w.dirty && t !in w.active
    case Call(t, _) => t in w.active
    case _ => false
  }

  predicate EnabledRun(w: World, es: seq<Event>) {
    es != [] ==> EnabledRun(w, es[..|es| - 1]) && Enabled(Run(w, es[..|es| - 1]), es[|es| - 1])
  }

  function Pending(w: World): set<Task> {
    w.dirty + w.active.Keys
  }

  /** One token for each step the pending work may still take. */
  function Tokens(w: World): set<(Task, int)> {
    set t, i | t in Pending(w) && 0 <= i < 30 && i < Potential(CellOf(w, t)) :: (t, i)
  }

  lemma PendingIsNotIdle(w: World, t: Task)
    ensures t in Pending(w) <==> !Idle(CellOf(w, t))
  {
  }

  lemma StepDescends(w: World, e: Event, t: Task)
    requires WellFormed(w) && DrainEvent(e) && Enabled(w, e)
    ensures t != e.t ==> CellOf(Apply(w, e), t) == CellOf(w, t)
    ensures t == e.t ==> Potential(CellOf(Apply(w, e), t)) < Potential(CellOf(w, t)) && t in Pending(w)
  {
    CellStep(w, e, t);
    if t == e.t {
      AdvanceDescends(w.conf, t, CellOf(w, t));
      assert CellOf(Apply(w, e), t) == Advance(w.conf, t, CellOf(w, t));
    }
  }

  lemma StepSpendsToken(w: World, e: Event)
    requires WellFormed(w) && DrainEvent(e) && Enabled(w, e)
    ensures |Tokens(Apply(w, e))| < |Tokens(w)|
  {
    var w', u := Apply(w, e), e.t;
    forall p | p in Tokens(w') ensures p in Tokens(w) {
      StepDescends(w, e, p.0);
      PendingIsNotIdle(w, p.0);
      PendingIsNotIdle(w', p.0);
    }
    StepDescends(w, e, u);
    var spent := (u, Potential(CellOf(w', u)));
    assert spent in Tokens(w) && spent !in Tokens(w');
    Smaller(Tokens(w'), Tokens(w), spent);
  }

  lemma Smaller<T>(a: set<T>, b: set<T>, x: T)
    requires a <= b && x in b && x !in a
    ensures |a| < |b|
  {
    assert a <= b - {x};
    SubsetIsSmaller(a, b - {x});
  }

  lemma {:induction false} SubsetIsSmaller<T>(a: set<T>, b: set<T>)
    requires a <= b
    ensures |a| <= |b|
  {
    if x :| x in a {
      SubsetIsSmaller(a - {x}, b - {x});
    }
  }

  lemma {:induction false} Grid(s: set<Task>)
    ensures |set t, i | t in s && 0 <= i < 30 :: (t, i)| == 30 * |s|
  {
    var g := set t, i | t in s && 0 <= i < 30 :: (t, i);
    if s == {} {
      assert g == {};
    } else {
      var x :| x in s;
      var rest := set t, i | t in s - {x} && 0 <= i < 30 :: (t, i);
      var row := set i | 0 <= i < 30 :: (x, i);
      Grid(s - {x});
      Row(x, 30);
      assert g == rest + row && rest !! row;
    }
  }

  lemma {:induction false} Row(x: Task, n: nat)
    ensures |set i | 0 <= i < n :: (x, i)| == n
  {
    var row := set i | 0 <= i < n :: (x, i);
    if n == 0 {
      assert row == {};
    } else {
      Row(x, n - 1);
      assert row == (set i | 0 <= i < n - 1 :: (x, i)) + {(x, n - 1)};
    }
  }

  lemma TokensBounded(w: World)
    ensures |Tokens(w)| <= 30 * |Pending(w)|
  {
    Grid(Pending(w));
    SubsetIsSmaller(Tokens(w), set t, i | t in Pending(w) && 0 <= i < 30 :: (t, i));
  }

  /** Termination. Without failures and changes from outside, at most thirty steps per pending task are
      ever taken, in whatever order. */
  lemma {:induction false} DrainTerminates(w: World, es: seq<Event>)
    requires WellFormed(w) && DrainRun(es) && EnabledRun(w, es)
    ensures WellFormed(Run(w, es)) && |es| + |Tokens(Run(w, es))| <= |Tokens(w)| <= 30 * |Pending(w)|
  {
    if es == [] {
      TokensBounded(w);
    } else {
      var p, e := es[..|es| - 1], es[|es| - 1];
      DrainTerminates(w, p);
      StaysWellFormed(Run(w, p), e);
      StepSpendsToken(Run(w, p), e);
    }
  }

  /** Pending work can always go on, so it can always be finished. */
  lemma {:induction false} DrainExists(w: World) returns (es: seq<Event>)
    requires WellFormed(w)
    ensures DrainRun(es) && Drained(Run(w, es))
    decreases |Tokens(w)|
  {
    if Drained(w) {
      es := [];
    } else {
      var e: Event;
      if t :| t in w.active {
        e := Call(t, Ok);
      } else {
        var t :| t in w.dirty;
        e := Dequeue(t);
      }
      StaysWellFormed(w, e);
      StepSpendsToken(w, e);
      var rest := DrainExists(Apply(w, e));
      es := [e] + rest;
      assert Run(w, []) == w && [e][..0] == [];
      RunConcat(w, [e], rest);
    }
  }

  /** Level-triggered convergence. After any run whatsoever (no restart, no eviction of the pods named),
      once users stop editing and calls stop failing, every way of finishing the work leaves the proxy
      pods as the Service asks: none when it is gone or does not enable them, and one when it enables
      them and gives what they need. Where a controller skips the Service (egress without a target,
      ingress beside egress), a pod stands exactly if one was made before and not removed since. */
  lemma Converges(w: World, es: seq<Event>, ds: seq<Event>, k: Key)
    requires Init(w) && Restart !in es
    requires Evict(PodKey(Task(Egress, k))) !in es && Evict(PodKey(Task(Ingress, k))) !in es
    requires DrainRun(ds) && Drained(Run(w, es + ds))
    ensures
      var now, egress, ingress := Run(w, es + ds), Task(Egress, k), Task(Ingress, k);
      && (k !in now.services ==> PodKey(egress) !in now.pods && PodKey(ingress) !in now.pods)
      && (k in now.services ==>
            var said := now.services[k].annotations;
            && (PodKey(egress) in now.pods <==>
                  && Says(said, "netmaker.io/egress", "enabled")
                  && (Gives(said, "netmaker.io/egress-target-ip") || Gives(said, "netmaker.io/egress-target-dns")
                      || Since(w, es + ds, egress, Made, Gone)))
            && (PodKey(ingress) in now.pods <==>
                  && Says(said, "netmaker.io/ingress", "enabled")
                  && (!Says(said, "netmaker.io/egress", "enabled") || Since(w, es + ds, ingress, Made, Gone))))
  {
    assert forall e | e in ds :: DrainEvent(e);
    QuietServices(w, es + ds, k);
    PodPresence(w, es + ds, Task(Egress, k));
    PodPresence(w, es + ds, Task(Ingress, k));
  }

  /** And there always is a way of finishing. */
  lemma CanConverge(w: World, es: seq<Event>) returns (ds: seq<Event>)
    requires Init(w)
    ensures DrainRun(ds) && Drained(Run(w, es + ds))
  {
    CellProduct(w, es, Task(Egress, Key("", "")));
    ds := DrainExists(Run(w, es));
    RunConcat(w, es, ds);
  }
}

/** The imperative reconcilers against the reference: left alone, one call of the code does what the
    reference says and touches nothing else. */
module Alone {
  import opened Kube
  import opened Protocol
  import opened Drain
  import opened Convergence
  import opened ClusterState

  /** With nothing in the way, a call that succeeds leads on to the same, and a return is a return
      without error. */
  predicate Smooth(v: View, next: Next) {
    match next
    case Goto(pc) => Unobstructed(v, pc)
    case Return(ok) => ok
  }

  lemma CallsAreSmooth(conf: Config, t: Task, v: View, pc: Pc)
    requires Unobstructed(v, pc)
    ensures
      var r := React(conf, t, v, pc, Ok);
      Smooth(r.view, r.next)
  {
  }

  predicate OnlyCalls(es: seq<Event>, t: Task) {
    forall e | e in es :: e.Call? && e.t == t && e.out == Ok
  }

  lemma OnlyCallsSplit(es: seq<Event>, t: Task)
    requires es != [] && OnlyCalls(es, t)
    ensures OnlyCalls(es[..|es| - 1], t) && es[|es| - 1] == Call(t, Ok)
  {
    assert es[|es| - 1] in es;
    assert forall e | e in es[..|es| - 1] :: e in es;
  }

  lemma {:induction false} SoloRun(w: World, es: seq<Event>, t: Task)
    requires WellFormed(w) && OnlyCalls(es, t) && t in w.active && w.active[t] == Fetch && t !in w.dirty
    ensures
      var now := Run(w, es);
      && WellFormed(now) && now.conf == w.conf && t !in now.dirty
      && (t in now.active ==> Unobstructed(ViewOf(now, t), now.active[t]))
  {
    if es != [] {
      var p, e := es[..|es| - 1], es[|es| - 1];
      OnlyCallsSplit(es, t);
      SoloRun(w, p, t);
      StaysWellFormed(Run(w, p), e);
      CellStep(Run(w, p), e, t);
      if t in Run(w, p).active {
        CallsAreSmooth(w.conf, t, ViewOf(Run(w, p), t), Run(w, p).active[t]);
      }
    }
  }

  lemma {:induction false} SoloFrame(w: World, es: seq<Event>, t: Task, u: Task)
    requires WellFormed(w) && OnlyCalls(es, t) && u != t
    ensures WellFormed(Run(w, es)) && CellOf(Run(w, es), u) == CellOf(w, u)
  {
    if es != [] {
      var p, e := es[..|es| - 1], es[|es| - 1];
      OnlyCallsSplit(es, t);
      SoloFrame(w, p, t, u);
      StaysWellFormed(Run(w, p), e);
      CellStep(Run(w, p), e, u);
    }
  }

  /** A solo run of calls that ends with the reconcile returned has reached the target. */
  lemma SoloReachesTarget(w: World, es: seq<Event>, t: Task)
    requires WellFormed(w) && OnlyCalls(es, t) && t in w.active && w.active[t] == Fetch && t !in w.dirty
    requires t !in Run(w, es).active
    ensures ViewOf(Run(w, es), t) == Target(w.conf, t, ViewOf(w, t))
  {
    SoloRun(w, es, t);
    DrainKeepsSettled(w, es, t);
    SettleReachesGoal(w.conf, t, CellOf(w, t));
    FetchGoal(w.conf, t, CellOf(w, t));
  }

  /** The last call of a solo run was made from a smooth position, so it did not return an error. */
  lemma SoloReturnsOk(init: World, log: seq<Event>, base: seq<Event>, t: Task, err: bool)
    requires base <= log && Returned(init, log, t, err)
    requires
      var w := Run(init, base);
      WellFormed(w) && OnlyCalls(log[|base|..], t) && t in w.active && w.active[t] == Fetch && t !in w.dirty
    ensures !err
  {
    var w := Run(init, base);
    ReturnedIsInactive(init, log, t, err);
    assert log != base;
    var es := log[|base|..|log| - 1];
    assert log[..|log| - 1] == base + es;
    assert OnlyCalls(es, t) by { assert forall e | e in es :: e in log[|base|..]; }
    assert log[|log| - 1] in log[|base|..];
    RunConcat(init, base, es);
    SoloRun(w, es, t);
    var before := Run(w, es);
    CallsAreSmooth(w.conf, t, ViewOf(before, t), before.active[t]);
  }

  lemma ReturnedIsInactive(init: World, log: seq<Event>, t: Task, err: bool)
    requires Returned(init, log, t, err)
    ensures t !in Run(init, log).active
  {
  }

  /** What a worker turn that nobody disturbs amounts to: a dequeue and this work item's own calls. */
  lemma SoloTurn(init: World, before: seq<Event>, es: seq<Event>, t: Task, err: bool)
    requires
      var w0 := Run(init, before);
      WellFormed(w0) && t in w0.dirty && t !in w0.active
    requires OnlyCalls(es, t) && Returned(init, before + [Dequeue(t)] + es, t, err)
    ensures
      var w0, w1 := Run(init, before), Run(init, before + [Dequeue(t)] + es);
      && !err && t !in w1.dirty && t !in w1.active
      && ViewOf(w1, t) == Target(w0.conf, t, ViewOf(w0, t))
      && forall u: Task | u != t :: CellOf(w1, u) == CellOf(w0, u)
  {
    var base := before + [Dequeue(t)];
    var w0, w := Run(init, before), Run(init, base);
    assert base[..|base| - 1] == before;
    assert (base + es)[|base|..] == es;
    StaysWellFormed(w0, Dequeue(t));
    SoloReturnsOk(init, base + es, base, t, err);
    ReturnedIsInactive(init, base + es, t, err);
    RunConcat(init, base, es);
    SoloRun(w, es, t);
    SoloReachesTarget(w, es, t);
    CellStep(w0, Dequeue(t), t);
    forall u: Task | u != t ensures CellOf(Run(w, es), u) == CellOf(w0, u) {
      CellStep(w0, Dequeue(t), u);
      SoloFrame(w, es, t, u);
    }
  }

  /** The code meets the reference. If in the next nine turns nobody else acts and no call fails, whatever
      happens before and after them, one worker turn on a queued task returns no error, leaves its objects exactly as
      `Target` says, and changes no other task's objects, queue entry or progress. */
  method ReconcileAlone(c: Cluster, t: Task) returns (err: bool)
    requires c.State() == Run(c.init, c.log) && WellFormed(c.State())
    requires t in c.dirty && t !in c.active
    requires forall n: nat | c.calls <= n < c.calls + MAX_CALLS :: c.TurnAt(n) == Turn([], Ok)
    modifies c
    ensures !err && t !in c.dirty && t !in c.active
    ensures ViewOf(c.State(), t) == Target(c.conf, t, old(ViewOf(c.State(), t)))
    ensures forall u: Task | u != t :: CellOf(c.State(), u) == old(CellOf(c.State(), u))
  {
    ghost var before := c.log;
    err := c.Work(t);
    ghost var es := c.log[|c.base|..];
    forall e | e in es ensures e.Call? && e.t == t && e.out == Ok {
      assert c.Expected(t, c.start, c.calls, e);
    }
    assert c.log == before + [Dequeue(t)] + es;
    SoloTurn(c.init, before, es, t, err);
  }
}

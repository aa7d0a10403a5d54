/** What an edit of a Service does to a proxy pod that stands, and whether traffic for an egress Service still
    arrives: the Endpoints follow every edit, the script does not. */
module Traffic {
  import opened Kube
  import opened Text
  import opened ProxyScript
  import opened ProxyPod
  import opened Protocol
  import opened History
  import opened Quiescence
  import opened PodOrigin
  import opened Drain
  import opened Convergence
  import opened Recovery
  import opened QuietEndpoints
  import opened Limits

  // ---------- When two Service versions build the same pod ----------

  predicate AllTo(fs: seq<Forwarder>, target: string) {
    forall f | f in fs :: f.target == target
  }

  predicate SamePorts(fs: seq<Forwarder>, fs': seq<Forwarder>) {
    |fs| == |fs'| && forall i | 0 <= i < |fs| :: fs[i].listen == fs'[i].listen && fs[i].remote == fs'[i].remote
  }

  lemma LineLength(options: string, f: Forwarder, f': Forwarder)
    requires f.listen == f'.listen && f.remote == f'.remote
    ensures |Line(options, f)| + |f'.target| == |Line(options, f')| + |f.target|
  {
  }

  lemma ScriptLength(options: string, fs: seq<Forwarder>)
    requires fs != []
    ensures |Script(options, false, fs)| == |Line(options, fs[0])| + 1 + |Script(options, false, fs[1..])|
  {
  }

  /** Scripts over the same ports differ in length by the targets alone, once for each port. */
  lemma {:induction false} LengthByTarget(options: string, fs: seq<Forwarder>, fs': seq<Forwarder>, a: string, b: string)
    requires SamePorts(fs, fs') && AllTo(fs, a) && AllTo(fs', b)
    ensures |Script(options, false, fs)| + |fs| * |b| == |Script(options, false, fs')| + |fs| * |a|
  {
    if fs != [] {
      LengthByTarget(options, fs[1..], fs'[1..], a, b);
      assert fs[0] in fs && fs'[0] in fs';
      ScriptLength(options, fs);
      ScriptLength(options, fs');
      LineLength(options, fs[0], fs'[0]);
      Distribute(|fs|, |a|);
      Distribute(|fs|, |b|);
    }
  }

  lemma Distribute(n: int, m: int)
    ensures n * m == m + (n - 1) * m
  {
  }

  lemma Cancel(n: int, a: int, b: int)
    requires n > 0 && n * a == n * b
    ensures a == b
  {
    assert n * (a - b) == 0;
  }

  function BeforeTarget(options: string, f: Forwarder): string {
    HEAD + Itoa(f.listen) + options
  }

  function AfterTarget(options: string, fs: seq<Forwarder>): string
    requires fs != []
  {
    (":" + Itoa(fs[0].remote) + TAIL) + "\n" + Script(options, false, fs[1..])
  }

  lemma AroundTarget(a: string, b: string, c: string, d: string, e: string, f: string, g: string)
    ensures (a + b + c + d + ":" + e + f) + "\n" + g == (a + b + c) + (d + ((":" + e + f) + "\n" + g))
  {
  }

  lemma TargetInScript(options: string, fs: seq<Forwarder>)
    requires fs != []
    ensures Script(options, false, fs) == BeforeTarget(options, fs[0]) + (fs[0].target + AfterTarget(options, fs))
  {
    var f := fs[0];
    AroundTarget(HEAD, Itoa(f.listen), options, f.target, Itoa(f.remote), TAIL, Script(options, false, fs[1..]));
  }

  lemma SameMiddle(front: string, a: string, x: string, b: string, y: string)
    requires front + (a + x) == front + (b + y) && |a| == |b|
    ensures a == b
  {
    StripPrefixExact(front + (a + x), front, a + x);
    StripPrefixExact(front + (a + x), front, b + y);
    assert (a + x)[..|a|] == a && (b + y)[..|a|] == b;
  }

  /** Over the same ports, whatever the targets are made of, equal scripts have equal targets. */
  lemma SameScriptSameTarget(options: string, fs: seq<Forwarder>, fs': seq<Forwarder>, a: string, b: string)
    requires SamePorts(fs, fs') && AllTo(fs, a) && AllTo(fs', b)
    requires fs != [] && Script(options, false, fs) == Script(options, false, fs')
    ensures a == b
  {
    assert fs[0] in fs && fs'[0] in fs';
    LengthByTarget(options, fs, fs', a, b);
    Cancel(|fs|, |a|, |b|);
    TargetInScript(options, fs);
    TargetInScript(options, fs');
    assert BeforeTarget(options, fs[0]) == BeforeTarget(options, fs'[0]);
    SameMiddle(BeforeTarget(options, fs[0]), a, AfterTarget(options, fs), b, AfterTarget(options, fs'));
  }

  lemma SamePortsFrom(a: string, ports: seq<ServicePort>, b: string, ports': seq<ServicePort>)
    requires EgressPorts(ports) == EgressPorts(ports')
    ensures |ports| == |ports'| && SamePorts(EgressForwarders(a, ports), EgressForwarders(b, ports'))
  {
    assert |EgressPorts(ports)| == |EgressPorts(ports')|;
    forall i | 0 <= i < |ports| ensures ListenPort(ports[i]) == ListenPort(ports'[i]) {
      assert EgressPorts(ports)[i] == EgressPorts(ports')[i];
    }
  }

  lemma SameCommand(before: Service, svc: Service)
    requires EgressPorts(before.ports) == EgressPorts(svc.ports)
    ensures EgressCommand(before) == EgressCommand(svc) <==> svc.ports == [] || Addr(before) == Addr(svc)
  {
    var fs, fs' := EgressForwarders(Addr(before), before.ports), EgressForwarders(Addr(svc), svc.ports);
    SamePortsFrom(Addr(before), before.ports, Addr(svc), svc.ports);
    assert EgressCommand(before)[2] == Script(EGRESS_OPTIONS, false, fs);
    assert EgressCommand(svc)[2] == Script(EGRESS_OPTIONS, false, fs');
    if EgressCommand(before) == EgressCommand(svc) && svc.ports != [] {
      SameScriptSameTarget(EGRESS_OPTIONS, fs, fs', Addr(before), Addr(svc));
    }
    if svc.ports == [] || Addr(before) == Addr(svc) {
      assert fs == fs';
    }
  }

  lemma InFront(p: string, front: string, tail: string)
    ensures p + (front + ['\n'] + tail) == (p + front) + ['\n'] + tail
  {
  }

  lemma InFrontTwice(p: string, q: string, s: string, front: string, tail: string)
    requires s == front + ['\n'] + tail
    ensures p + (q + s) == (p + (q + front)) + ['\n'] + tail
  {
    InFront(q, front, tail);
    InFront(p, q + front, tail);
  }

  lemma ScriptUnrolled(options: string, fs: seq<Forwarder>)
    requires fs != []
    ensures Script(options, true, fs)
         == (EchoLine(fs[0]) + "\n") + ((Line(options, fs[0]) + "\n") + Script(options, true, fs[1..]))
  {
  }

  lemma OneForwarder(options: string, f: Forwarder)
    ensures Script(options, true, [f]) == EchoLine(f) + ['\n'] + (Line(options, f) + ("\n" + WAIT))
  {
    var echo, line := EchoLine(f), Line(options, f);
    assert [f][1..] == [] && Script(options, true, []) == WAIT;
    assert Script(options, true, [f]) == (echo + "\n") + (line + "\n" + WAIT);
    assert (line + "\n") + WAIT == line + ("\n" + WAIT);
  }

  /** The last forwarder of an ingress script stands on a line of its own before the final wait. */
  lemma {:induction false} LastLine(options: string, fs: seq<Forwarder>) returns (front: string)
    requires fs != []
    ensures Script(options, true, fs) == front + ['\n'] + (Line(options, fs[|fs| - 1]) + ("\n" + WAIT))
  {
    if |fs| == 1 {
      front := EchoLine(fs[0]);
      assert fs == [fs[0]];
      OneForwarder(options, fs[0]);
    } else {
      var rest := LastLine(options, fs[1..]);
      var last := fs[|fs| - 1];
      assert last == fs[1..][|fs[1..]| - 1];
      var echo, line := EchoLine(fs[0]) + "\n", Line(options, fs[0]) + "\n";
      ScriptUnrolled(options, fs);
      InFrontTwice(echo, line, Script(options, true, fs[1..]), rest, Line(options, last) + ("\n" + WAIT));
      front := echo + (line + rest);
    }
  }

  lemma SameLineSameTarget(options: string, f: Forwarder, f': Forwarder)
    requires f.listen == f'.listen && f.remote == f'.remote && Line(options, f) == Line(options, f')
    ensures f == f'
  {
    var front, back := HEAD + Itoa(f.listen) + options, ":" + Itoa(f.remote) + TAIL;
    assert Line(options, f) == front + (f.target + back) && Line(options, f') == front + (f'.target + back);
    StripPrefixExact(Line(options, f), front, f.target + back);
    StripPrefixExact(Line(options, f), front, f'.target + back);
    StripSuffixExact(f.target + back, back, f.target);
    StripSuffixExact(f.target + back, back, f'.target);
  }

  lemma SameLastLine(text: string, x: string, l: string, x': string, l': string, end: string)
    requires text == x + ['\n'] + (l + end) && text == x' + ['\n'] + (l' + end)
    requires '\n' !in l && '\n' !in l'
    ensures l == l'
  {
    var s := x + ['\n'] + l;
    assert text == s + end && text == (x' + ['\n'] + l') + end;
    StripSuffixExact(text, end, s);
    StripSuffixExact(text, end, x' + ['\n'] + l');
    CutLastExact(s, '\n', x, l);
    CutLastExact(s, '\n', x', l');
  }

  lemma SameLastLineBehind(p: string, s: string, x: string, l: string, p': string, s': string, x': string, l': string, end: string)
    requires p + s == p' + s' && s == x + ['\n'] + (l + end) && s' == x' + ['\n'] + (l' + end)
    requires '\n' !in l && '\n' !in l'
    ensures l == l'
  {
    InFront(p, x, l + end);
    InFront(p', x', l' + end);
    SameLastLine(p + s, p + x, l, p' + x', l', end);
  }

  lemma LineIsOne(options: string, f: Forwarder)
    requires '\n' !in f.target && '\n' !in options
    ensures '\n' !in Line(options, f)
  {
    ItoaChars(f.listen);
    ItoaChars(f.remote);
  }

  lemma BindStart(prelude: string, bindIP: string)
    requires IsPrelude(prelude)
    ensures BindPart(prelude, bindIP) != "" && (BindPart(prelude, bindIP)[0] == '#' <==> bindIP == "")
  {
    if bindIP != "" {
      assert BindPart(prelude, bindIP)[0] == BIND[0] == 'W';
    }
  }

  lemma Between(front: string, a: string, b: string, end: string)
    requires front + (a + end) == front + (b + end)
    ensures a == b
  {
    StripPrefixExact(front + (a + end), front, a + end);
    StripPrefixExact(front + (a + end), front, b + end);
    StripSuffixExact(a + end, end, a);
    StripSuffixExact(a + end, end, b);
  }

  lemma BindParts(prelude: string, bindIP: string)
    requires bindIP != ""
    ensures BindPart(prelude, bindIP) == BIND + (bindIP + ("\n" + CONFIGURED))
  {
    Regrouped(BIND, bindIP, "\n", CONFIGURED);
  }

  lemma Regrouped(a: string, b: string, c: string, d: string)
    ensures a + b + c + d == a + (b + (c + d))
  {
  }

  lemma SameBind(prelude: string, bindIP: string, bindIP': string)
    requires IsPrelude(prelude) && BindPart(prelude, bindIP) == BindPart(prelude, bindIP')
    ensures bindIP == bindIP'
  {
    BindStart(prelude, bindIP);
    BindStart(prelude, bindIP');
    if bindIP != "" {
      BindParts(prelude, bindIP);
      BindParts(prelude, bindIP');
      Between(BIND, bindIP, bindIP', "\n" + CONFIGURED);
    }
  }

  /** Behind whatever else, equal echoed scripts over the same ports have equal targets. */
  lemma SameEchoedTarget(options: string, p: string, fs: seq<Forwarder>, p': string, fs': seq<Forwarder>, a: string, b: string)
    requires SamePorts(fs, fs') && AllTo(fs, a) && AllTo(fs', b) && fs != []
    requires '\n' !in a && '\n' !in b && '\n' !in options
    requires p + Script(options, true, fs) == p' + Script(options, true, fs')
    ensures a == b
  {
    var f, f' := fs[|fs| - 1], fs'[|fs'| - 1];
    assert f in fs && f' in fs';
    var front := LastLine(options, fs);
    var front' := LastLine(options, fs');
    LineIsOne(options, f);
    LineIsOne(options, f');
    SameLastLineBehind(p, Script(options, true, fs), front, Line(options, f),
                       p', Script(options, true, fs'), front', Line(options, f'), "\n" + WAIT);
    SameLineSameTarget(options, f, f');
  }

  lemma SameForwarders(fs: seq<Forwarder>, fs': seq<Forwarder>, a: string, b: string)
    requires SamePorts(fs, fs') && AllTo(fs, a) && AllTo(fs', b)
    ensures fs == fs' <==> fs == [] || a == b
  {
    forall i | 0 <= i < |fs| ensures fs[i] == fs'[i] <==> a == b {
      assert fs[i] in fs && fs'[i] in fs';
    }
    if fs != [] && a != b {
      assert fs[0] != fs'[0];
    }
  }

  lemma CommonEnd(p: string, p': string, end: string)
    requires p + end == p' + end
    ensures p == p'
  {
    StripSuffixExact(p + end, end, p);
    StripSuffixExact(p + end, end, p');
  }

  lemma SameIngressScript(prelude: string, bindIP: string, fs: seq<Forwarder>, bindIP': string, fs': seq<Forwarder>,
                          a: string, b: string)
    requires IsPrelude(prelude) && SamePorts(fs, fs') && AllTo(fs, a) && AllTo(fs', b) && '\n' !in a && '\n' !in b
    requires '\n' !in INGRESS_OPTIONS
    ensures IngressScript(prelude, bindIP, fs) == IngressScript(prelude, bindIP', fs')
       <==> bindIP == bindIP' && (fs == [] || a == b)
  {
    SameForwarders(fs, fs', a, b);
    if IngressScript(prelude, bindIP, fs) == IngressScript(prelude, bindIP', fs') {
      SameScriptSameParts(prelude, bindIP, fs, bindIP', fs', a, b);
    }
  }

  lemma SameScriptSameParts(prelude: string, bindIP: string, fs: seq<Forwarder>, bindIP': string, fs': seq<Forwarder>,
                            a: string, b: string)
    requires IsPrelude(prelude) && SamePorts(fs, fs') && AllTo(fs, a) && AllTo(fs', b) && '\n' !in a && '\n' !in b
    requires '\n' !in INGRESS_OPTIONS && IngressScript(prelude, bindIP, fs) == IngressScript(prelude, bindIP', fs')
    ensures bindIP == bindIP' && fs == fs'
  {
    var options, p, p' := INGRESS_OPTIONS, BindPart(prelude, bindIP), BindPart(prelude, bindIP');
    assert p + Script(options, true, fs) == p' + Script(options, true, fs');
    SameForwarders(fs, fs', a, b);
    if fs != [] {
      SameEchoedTarget(options, p, fs, p', fs', a, b);
    }
    CommonEnd(p, p', Script(options, true, fs));
    SameBind(prelude, bindIP, bindIP');
  }

  lemma SameIngressPorts(a: string, ports: seq<ServicePort>, b: string, ports': seq<ServicePort>)
    requires IngressPorts(ports) == IngressPorts(ports')
    ensures |ports| == |ports'| && SamePorts(IngressForwarders(a, ports), IngressForwarders(b, ports'))
  {
    assert |IngressPorts(ports)| == |IngressPorts(ports')|;
    forall i | 0 <= i < |ports| ensures ports[i].port == ports'[i].port {
      assert IngressPorts(ports)[i] == IngressPorts(ports')[i];
    }
  }

  lemma NoBreakInOptions()
    ensures '\n' !in INGRESS_OPTIONS
  {
  }

  lemma SameIngressCommand(conf: Config, k: Key, before: Service, svc: Service)
    requires IsPrelude(conf.prelude) && IngressPorts(before.ports) == IngressPorts(svc.ports)
    requires '\n' !in ServiceAddr(k, before) && '\n' !in ServiceAddr(k, svc)
    ensures IngressCommand(conf, k, before) == IngressCommand(conf, k, svc)
       <==> BindIP(before) == BindIP(svc) && (svc.ports == [] || ServiceAddr(k, before) == ServiceAddr(k, svc))
  {
    var a, b := ServiceAddr(k, before), ServiceAddr(k, svc);
    var fs, fs' := IngressForwarders(a, before.ports), IngressForwarders(b, svc.ports);
    SameIngressPorts(a, before.ports, b, svc.ports);
    NoBreakInOptions();
    SameIngressScript(conf.prelude, BindIP(before), fs, BindIP(svc), fs', a, b);
    SameShell(IngressScript(conf.prelude, BindIP(before), fs), IngressScript(conf.prelude, BindIP(svc), fs'));
  }

  lemma SameShell(script: string, script': string)
    ensures Shell(script) == Shell(script') <==> script == script'
  {
    assert Shell(script)[2] == script && Shell(script')[2] == script';
  }

  function DnsName(svc: Service): string {
    ValueOf(svc.annotations, "netmaker.io/ingress-dns-name")
  }

  /** What of a Service its proxy pod depends on, besides its name. */
  predicate SameForPod(t: Task, before: Service, netEnv: seq<EnvVar>, svc: Service, wanted: seq<EnvVar>) {
    && before.uid == svc.uid && netEnv == wanted
    && match t.ctl
       case Egress =>
         EgressPorts(before.ports) == EgressPorts(svc.ports) && (svc.ports == [] || Addr(before) == Addr(svc))
       case Ingress =>
         && IngressPorts(before.ports) == IngressPorts(svc.ports)
         && (svc.ports == [] || ServiceAddr(t.key, before) == ServiceAddr(t.key, svc))
         && BindIP(before) == BindIP(svc) && DnsName(before) == DnsName(svc)
  }

  lemma SameEgressPod(conf: Config, k: Key, before: Service, netEnv: seq<EnvVar>, svc: Service, wanted: seq<EnvVar>)
    ensures BuildPod(conf, Egress, k, before, netEnv) == BuildPod(conf, Egress, k, svc, wanted)
       <==> SameForPod(Task(Egress, k), before, netEnv, svc, wanted)
  {
    var a, b := BuildPod(conf, Egress, k, before, netEnv), BuildPod(conf, Egress, k, svc, wanted);
    assert a.containers[0].env == netEnv && b.containers[0].env == wanted;
    assert a.containers[1].ports == EgressPorts(before.ports) && b.containers[1].ports == EgressPorts(svc.ports);
    assert a.containers[1].command == EgressCommand(before) && b.containers[1].command == EgressCommand(svc);
    assert a.owner.uid == before.uid && b.owner.uid == svc.uid;
    if EgressPorts(before.ports) == EgressPorts(svc.ports) {
      SameCommand(before, svc);
    }
  }

  lemma SameIngressPod(conf: Config, k: Key, before: Service, netEnv: seq<EnvVar>, svc: Service, wanted: seq<EnvVar>)
    requires IsPrelude(conf.prelude) && '\n' !in ServiceAddr(k, before) && '\n' !in ServiceAddr(k, svc)
    ensures BuildPod(conf, Ingress, k, before, netEnv) == BuildPod(conf, Ingress, k, svc, wanted)
       <==> SameForPod(Task(Ingress, k), before, netEnv, svc, wanted)
  {
    var a, b := BuildPod(conf, Ingress, k, before, netEnv), BuildPod(conf, Ingress, k, svc, wanted);
    assert a.containers[0].env == netEnv && b.containers[0].env == wanted;
    assert a.containers[1].ports == IngressPorts(before.ports) && b.containers[1].ports == IngressPorts(svc.ports);
    assert a.containers[1].command == IngressCommand(conf, k, before) && b.containers[1].command == IngressCommand(conf, k, svc);
    assert a.owner.uid == before.uid && b.owner.uid == svc.uid;
    assert a.annotations["netmaker.io/ingress-dns-name"] == DnsName(before);
    assert b.annotations["netmaker.io/ingress-dns-name"] == DnsName(svc);
    if IngressPorts(before.ports) == IngressPorts(svc.ports) {
      SameIngressCommand(conf, k, before, svc);
    }
  }

  /** An edit of a Service does the proxy pod that stands no harm, in every order of the work, exactly if the
      pod depends on nothing that has changed: the token environment that the reads would give now, the
      Service's identity, its ports as the pod declares them, if there are ports the address they are
      forwarded to, and for ingress bind address and DNS name. Cluster addresses and the names of Services
      and namespaces hold no line break; an egress target may hold anything. */
  lemma EditHarmlessExactly(w: World, t: Task, before: Service, netEnv: seq<EnvVar>, svc: Service, d: seq<Event>)
    requires WellFormed(w) && Drained(w) && Decide(t.ctl, Some(svc)).Ensure?
    requires PodKey(t) in w.pods && w.pods[PodKey(t)].spec == BuildPod(w.conf, t.ctl, t.key, before, netEnv)
    requires t.ctl.Ingress? ==> IsPrelude(w.conf.prelude) && '\n' !in ServiceAddr(t.key, before) && '\n' !in ServiceAddr(t.key, svc)
    requires DrainRun(d) && Drained(Run(Apply(w, PutService(t.key, svc)), d))
    ensures
      var end := Run(Apply(w, PutService(t.key, svc)), d);
      var wanted := EnvFromReads(w.conf, t.key, svc, w.secrets, true, w.secrets, true, w.secrets, true);
      && PodKey(t) in end.pods
      && (end.pods[PodKey(t)].spec == PodFor(w.conf, t, svc, w.secrets).spec <==> SameForPod(t, before, netEnv, svc, wanted))
  {
    var wanted := EnvFromReads(w.conf, t.key, svc, w.secrets, true, w.secrets, true, w.secrets, true);
    PutThenDrain(w, t.key, svc, d, t);
    assert Lookup(Run(Apply(w, PutService(t.key, svc)), d).pods, PodKey(t)) == Lookup(w.pods, PodKey(t));
    match t.ctl
    case Egress => SameEgressPod(w.conf, t.key, before, netEnv, svc, wanted);
    case Ingress => SameIngressPod(w.conf, t.key, before, netEnv, svc, wanted);
  }

  // ---------- Endpoints against the script behind them ----------

  /** All that the Endpoints name is this address, on ports that one of the forwarders listens on. */
  predicate Reaches(ep: Option<Endpoints>, ip: string, fs: seq<Forwarder>) {
    && ep.Some?
    && forall s | s in ep.value.subsets :: s.ip == ip && forall p | p in s.ports :: Listened(fs, p.port)
  }

  predicate Listened(fs: seq<Forwarder>, port: int) {
    exists f | f in fs :: f.listen == port
  }

  /** The pod of version `made` listens on each port of version `svc`. */
  predicate Covers(made: seq<ServicePort>, ports: seq<ServicePort>) {
    forall p | p in ports :: exists q | q in made :: ListenPort(q) == p.port
  }

  lemma ListenedExactly(addr: string, made: seq<ServicePort>, port: int)
    ensures Listened(EgressForwarders(addr, made), port) <==> exists q | q in made :: ListenPort(q) == port
  {
    var fs := EgressForwarders(addr, made);
    if f :| f in fs && f.listen == port {
      var i :| 0 <= i < |fs| && fs[i] == f;
      assert made[i] in made;
    }
    if q :| q in made && ListenPort(q) == port {
      var i :| 0 <= i < |made| && made[i] == q;
      assert fs[i] in fs;
    }
  }

  lemma ReachesExactly(t: Task, svc: Service, seen: Pod, ip: string, made: Service)
    ensures Reaches(Some(Endpoints(ProxySubsets(t, svc, seen), 0)), ip, EgressForwarders(Addr(made), made.ports))
       <==> seen.ip == ip && Covers(made.ports, svc.ports)
  {
    var subsets, fs := ProxySubsets(t, svc, seen), EgressForwarders(Addr(made), made.ports);
    var named := EndpointPorts(svc.ports);
    assert subsets[0] in subsets && subsets == [Subset(seen.ip, PodKey(t), named)];
    forall p: ServicePort ensures Listened(fs, p.port) <==> exists q | q in made.ports :: ListenPort(q) == p.port {
      ListenedExactly(Addr(made), made.ports, p.port);
    }
    if forall p | p in named :: Listened(fs, p.port) {
      forall p | p in svc.ports ensures Listened(fs, p.port) {
        var i :| 0 <= i < |svc.ports| && svc.ports[i] == p;
        assert named[i] in named;
      }
    }
    if Covers(made.ports, svc.ports) {
      forall p | p in named ensures Listened(fs, p.port) {
        var i :| 0 <= i < |named| && named[i] == p;
        assert svc.ports[i] in svc.ports;
      }
    }
  }

  lemma SameReach(ep: Endpoints, ep': Endpoints, ip: string, fs: seq<Forwarder>)
    requires ep.subsets == ep'.subsets
    ensures Reaches(Some(ep), ip, fs) <==> Reaches(Some(ep'), ip, fs)
  {
  }

  /** Whether traffic arrives, over all runs. When the egress work item of a Service that wants a proxy is
      quiet, its last look saw the pod running and nobody edited the Endpoints since, the pod that stands
      was built from some version `made` of the Service. Its script reads as the forwarders of that version
      exactly if the target is a host. And the Endpoints name the pod's address and ports these listen on
      exactly if the address is the one seen and each port of the Service now is a listen port of `made`. */
  lemma TrafficArrivesExactly(w: World, es: seq<Event>, k: Key) returns (made: Service, r: Reads)
    requires Init(w) && Quiet(Run(w, es), Task(Egress, k)) && HasPod(Run(w, es), Egress, k)
    requires Decide(Egress, Lookup(Run(w, es).services, k)).Ensure?
    requires
      var l := LastLook(w, es, Task(Egress, k));
      l.Look? && SeenRunning(l.pod) && !l.edited
    ensures InOrder(es, r) && ServiceAt(w, es, r.service, k, made) && Decide(Egress, Some(made)).Ensure?
    ensures
      var now, l := Run(w, es), LastLook(w, es, Task(Egress, k));
      var pod := now.pods[PodKey(Task(Egress, k))];
      var fs := EgressForwarders(Addr(made), made.ports);
      && |pod.spec.containers| == 2 && |pod.spec.containers[1].command| == 3
      && (ReadScript(EGRESS_OPTIONS, false, pod.spec.containers[1].command[2]) == Some(fs)
          <==> made.ports == [] || HostWord(Addr(made)))
      && (Reaches(Lookup(now.endpoints, k), pod.ip, fs)
          <==> l.pod.value.ip == pod.ip && Covers(made.ports, now.services[k].ports))
  {
    var t, now, l := Task(Egress, k), Run(w, es), LastLook(w, es, Task(Egress, k));
    made, r := PodFromOneVersion(w, es, t);
    QuietEndpoints.QuietEndpoints(w, es, k);
    var pod, ep := now.pods[PodKey(t)], Lookup(now.endpoints, k);
    var fs := EgressForwarders(Addr(made), made.ports);
    assert pod.spec.containers[1].command == EgressCommand(made);
    EgressScriptMeaning(TargetIP(made), TargetDNS(made), made.ports);
    ReachesExactly(t, l.svc, l.pod.value, pod.ip, made);
    SameReach(ep.value, Endpoints(ProxySubsets(t, l.svc, l.pod.value), 0), pod.ip, fs);
  }

  // ---------- A harmful edit ----------

  function OnePort(port: int): Service {
    Service("uid", map["netmaker.io/egress" := "enabled", "netmaker.io/egress-target-ip" := "a"], "10.0.0.1",
            [ServicePort("http", port, TargetPort(0, ""), "TCP")])
  }

  /** A drained cluster whose Service has its egress pod made and running. */
  lemma RunningProxy(k: Key, svc: Service, ip: string) returns (w: World, d: seq<Event>)
    requires IsEgressEnabled(svc) && HasTarget(svc)
    ensures Init(w) && w.services == map[k := svc] && DrainRun(d)
    ensures
      var now := Run(Run(w, d), [Kubelet(PodKey(Task(Egress, k)), Running, ip)]);
      && WellFormed(now) && Drained(now) && now.conf == w.conf
      && Lookup(now.pods, PodKey(Task(Egress, k))) == Some(PodFor(w.conf, Task(Egress, k), svc, map[]).(phase := Running, ip := ip))
  {
    var t, services := Task(Egress, k), map[k := svc];
    w := World(Config(map[], "#"), services, map[], map[], map[], TasksOf(services), map[]);
    d := DrainExists(w);
    Member(services, t);
    DrainedIsSettled(w, d, t);
    ReconcileReachesTarget(w.conf, t, ViewOf(w, t));
    DrainKeepsSettled(w, d, t);
    var made := Run(w, d);
    assert Lookup(made.pods, PodKey(t)) == Some(PodFor(w.conf, t, svc, map[]));
    var e := Kubelet(PodKey(t), Running, ip);
    assert [e][..0] == [] && Run(made, [e]) == Apply(made, e);
    StaysWellFormed(made, e);
  }

  /** One edit that does harm: the port of a Service with a running egress pod is changed from 80 to 8080. The
      pod's script still reads as one forwarder on port 80, while the Endpoints send traffic to port 8080. */
  lemma HarmfulEdit() returns (w: World, k: Key, d: seq<Event>, ip: string, d': seq<Event>)
    ensures Init(w) && w.services == map[k := OnePort(80)] && DrainRun(d) && DrainRun(d')
    ensures
      var t := Task(Egress, k);
      var end := Run(Apply(Run(Run(w, d), [Kubelet(PodKey(t), Running, ip)]), PutService(k, OnePort(8080))), d');
      && Drained(end) && HasPod(end, Egress, k)
      && var pod := end.pods[PodKey(t)];
      && pod.phase == Running && |pod.spec.containers| == 2 && |pod.spec.containers[1].command| == 3
      && ReadScript(EGRESS_OPTIONS, false, pod.spec.containers[1].command[2]) == Some([Forwarder(80, "a", 80)])
      && Lookup(end.endpoints, k).Some?
      && end.endpoints[k].subsets == [Subset(pod.ip, PodKey(t), [EndpointPort("http", 8080, "TCP")])]
      && !Reaches(Lookup(end.endpoints, k), pod.ip, [Forwarder(80, "a", 80)])
  {
    k, ip := Key("default", "web"), "10.1.0.7";
    var t := Task(Egress, k);
    w, d := RunningProxy(k, OnePort(80), ip);
    var now := Run(Run(w, d), [Kubelet(PodKey(t), Running, ip)]);
    StaysWellFormed(now, PutService(k, OnePort(8080)));
    d' := DrainExists(Apply(now, PutService(k, OnePort(8080))));
    EditReachesOnlyEndpoints(now, k, OnePort(8080), d');
    var end := Run(Apply(now, PutService(k, OnePort(8080))), d');
    var pod := end.pods[PodKey(t)];
    assert pod.spec == BuildPod(w.conf, Egress, k, OnePort(80), CleanEnv(w.conf, k));
    assert pod.spec.containers[1].command == EgressCommand(OnePort(80));
    PortsOf(80);
    PortsOf(8080);
    EgressScriptMeaning(TargetIP(OnePort(80)), TargetDNS(OnePort(80)), OnePort(80).ports);
    assert HostWord("a");
    var named := EndpointPort("http", 8080, "TCP");
    assert end.endpoints[k].subsets[0].ports[0] == named;
    assert !Listened([Forwarder(80, "a", 80)], 8080);
  }

  function CleanEnv(conf: Config, k: Key): seq<EnvVar> {
    EnvFromReads(conf, k, OnePort(80), map[], true, map[], true, map[], true)
  }

  lemma PortsOf(port: int)
    ensures IsEgressEnabled(OnePort(port)) && HasTarget(OnePort(port)) && Addr(OnePort(port)) == "a"
    ensures port != 0 ==> EgressForwarders("a", OnePort(port).ports) == [Forwarder(port, "a", port)]
    ensures EndpointPorts(OnePort(port).ports) == [EndpointPort("http", port, "TCP")]
  {
  }
}

/** Egress and ingress proxy pods: what each controller wants for a Service, the loops over the
    Service ports, the netclient token, and the pod built from them. */
module ProxyPod {
  import opened Kube
  import opened Text
  import opened ProxyScript

  datatype Ctl = Egress | Ingress

  // ---------- What a controller wants for a Service ----------

  predicate IsEgressEnabled(svc: Service) {
    ValueOf(svc.annotations, "netmaker.io/egress") == "enabled"
  }

  predicate IsIngressEnabled(svc: Service) {
    ValueOf(svc.annotations, "netmaker.io/ingress") == "enabled"
  }

  function TargetIP(svc: Service): string {
    ValueOf(svc.annotations, "netmaker.io/egress-target-ip")
  }

  function TargetDNS(svc: Service): string {
    ValueOf(svc.annotations, "netmaker.io/egress-target-dns")
  }

  predicate HasTarget(svc: Service) {
    TargetIP(svc) != "" || TargetDNS(svc) != ""
  }

  datatype Verdict = Remove | Skip | Ensure(svc: Service)

  /** The branch a reconcile takes on the Service it read. */
  function Decide(ctl: Ctl, svc: Option<Service>): Verdict {
    match svc
    case None => Remove
    case Some(s) =>
      match ctl
      case Egress => if !IsEgressEnabled(s) then Remove else if !HasTarget(s) then Skip else Ensure(s)
      case Ingress => if !IsIngressEnabled(s) then Remove else if IsEgressEnabled(s) then Skip else Ensure(s)
  }

  /** The host that egress traffic of a Service goes to. */
  function Addr(svc: Service): string {
    TargetAddr(TargetIP(svc), TargetDNS(svc))
  }

  /** It is the DNS target if one is given, else the IP target. */
  lemma AddrIs(s: Service)
    ensures Addr(s) == FirstNonEmpty([ValueOf(s.annotations, "netmaker.io/egress-target-dns"),
                                      ValueOf(s.annotations, "netmaker.io/egress-target-ip")])
    ensures Addr(s) != "" <==> Gives(s.annotations, "netmaker.io/egress-target-ip")
                               || Gives(s.annotations, "netmaker.io/egress-target-dns")
  {
    FirstOfTwo(ValueOf(s.annotations, "netmaker.io/egress-target-dns"), ValueOf(s.annotations, "netmaker.io/egress-target-ip"));
  }

  /** What the annotations mean: an egress pod is wanted exactly if egress is enabled and there is an address
      for its script to forward to, an ingress pod exactly if ingress is enabled and egress is not; and a
      pod is to go exactly if its own annotation does not enable it, or the Service is gone. */
  lemma WantedExactly(s: Service)
    ensures Decide(Egress, Some(s)) == Ensure(s) <==> Says(s.annotations, "netmaker.io/egress", "enabled") && Addr(s) != ""
    ensures Decide(Egress, Some(s)) == Remove <==> !Says(s.annotations, "netmaker.io/egress", "enabled")
    ensures Decide(Ingress, Some(s)) == Ensure(s)
       <==> Says(s.annotations, "netmaker.io/ingress", "enabled") && !Says(s.annotations, "netmaker.io/egress", "enabled")
    ensures Decide(Ingress, Some(s)) == Remove <==> !Says(s.annotations, "netmaker.io/ingress", "enabled")
    ensures Decide(Egress, None) == Decide(Ingress, None) == Remove
    ensures HasTarget(s) <==> Addr(s) != ""
  {
    AddrIs(s);
  }

  // ---------- The loops over the Service ports ----------

  function ListenPort(p: ServicePort): int {
    if p.target.intVal != 0 then p.target.intVal else p.port
  }

  function TargetAddr(ip: string, dns: string): string {
    if dns != "" then dns else ip
  }

  function EgressForwarders(addr: string, ports: seq<ServicePort>): seq<Forwarder> {
    seq(|ports|, i requires 0 <= i < |ports| => Forwarder(ListenPort(ports[i]), addr, ListenPort(ports[i])))
  }

  function IngressForwarders(addr: string, ports: seq<ServicePort>): seq<Forwarder> {
    seq(|ports|, i requires 0 <= i < |ports| => Forwarder(ports[i].port, addr, ports[i].port))
  }

  function EgressPorts(ports: seq<ServicePort>): seq<ContainerPort> {
    seq(|ports|, i requires 0 <= i < |ports| => ContainerPort(ports[i].name, ListenPort(ports[i]), ports[i].protocol))
  }

  function IngressPorts(ports: seq<ServicePort>): seq<ContainerPort> {
    seq(|ports|, i requires 0 <= i < |ports| => ContainerPort(ports[i].name, ports[i].port, ports[i].protocol))
  }

  function EndpointPorts(ports: seq<ServicePort>): seq<EndpointPort> {
    seq(|ports|, i requires 0 <= i < |ports| => EndpointPort(ports[i].name, ports[i].port, ports[i].protocol))
  }

  function ServiceAddr(k: Key, svc: Service): string {
    if svc.clusterIP == "" || svc.clusterIP == "None" then k.name + "." + k.ns + ".svc.cluster.local" else svc.clusterIP
  }

  function Shell(script: string): seq<string> {
    ["/bin/sh", "-c", script]
  }

  lemma ScriptSnoc(options: string, echoed: bool, done: string, fs: seq<Forwarder>, i: nat)
    requires i < |fs|
    ensures done + Script(options, echoed, fs[i..])
         == (done + (if echoed then EchoLine(fs[i]) + "\n" else "") + Line(options, fs[i]) + "\n")
            + Script(options, echoed, fs[i + 1..])
  {
    assert fs[i..][0] == fs[i] && fs[i..][1..] == fs[i + 1..];
    Reassociate(done, if echoed then EchoLine(fs[i]) + "\n" else "", Line(options, fs[i]), "\n",
                Script(options, echoed, fs[i + 1..]));
  }

  lemma Reassociate(a: string, b: string, c: string, d: string, e: string)
    ensures a + (b + (c + d + e)) == (a + b + c + d) + e
  {
  }

  lemma {:induction false} EgressText(fs: seq<Forwarder>, ls: seq<string>)
    requires |ls| == |fs|
    requires forall i | 0 <= i < |fs| ::
               ls[i] == "socat TCP-LISTEN:" + Itoa(fs[i].listen) + ",fork,reuseaddr TCP:" + fs[i].target + ":" + Itoa(fs[i].remote) + " &"
    ensures Script(EGRESS_OPTIONS, false, fs) == Lines(ls) + "wait\n"
  {
    if fs != [] {
      EgressText(fs[1..], ls[1..]);
      assert ls[0] == Line(EGRESS_OPTIONS, fs[0]);
      Chain(ls[0], Lines(ls[1..]), "wait\n");
    }
  }

  lemma {:induction false} IngressText(fs: seq<Forwarder>, ls: seq<string>)
    requires |ls| == |fs|
    requires forall i | 0 <= i < |fs| ::
               ls[i] == "echo \"Starting socat proxy: $WG_IP:" + Itoa(fs[i].listen) + " -> " + fs[i].target + ":" + Itoa(fs[i].remote) + "\"\n"
                        + ("socat TCP-LISTEN:" + Itoa(fs[i].listen) + ",bind=$WG_IP,fork,reuseaddr TCP:" + fs[i].target + ":" + Itoa(fs[i].remote) + " &")
    ensures Script(INGRESS_OPTIONS, true, fs) == Lines(ls) + "wait\n"
  {
    if fs != [] {
      IngressText(fs[1..], ls[1..]);
      var echo, line := EchoLine(fs[0]) + "\n", Line(INGRESS_OPTIONS, fs[0]);
      assert ls[0] == echo + line;
      Chain(ls[0], Lines(ls[1..]), "wait\n");
      Chain3(echo, line, Lines(ls[1..]) + "wait\n");
    }
  }

  lemma EgressLines(fs: seq<Forwarder>) returns (ls: seq<string>)
    ensures |ls| == |fs| && Script(EGRESS_OPTIONS, false, fs) == Lines(ls) + "wait\n"
    ensures forall i | 0 <= i < |fs| ::
              ls[i] == "socat TCP-LISTEN:" + Itoa(fs[i].listen) + ",fork,reuseaddr TCP:" + fs[i].target + ":" + Itoa(fs[i].remote) + " &"
  {
    ls := seq(|fs|, i requires 0 <= i < |fs| =>
            "socat TCP-LISTEN:" + Itoa(fs[i].listen) + ",fork,reuseaddr TCP:" + fs[i].target + ":" + Itoa(fs[i].remote) + " &");
    EgressText(fs, ls);
  }

  lemma IngressLines(fs: seq<Forwarder>) returns (ls: seq<string>)
    ensures |ls| == |fs| && Script(INGRESS_OPTIONS, true, fs) == Lines(ls) + "wait\n"
    ensures forall i | 0 <= i < |fs| ::
              ls[i] == "echo \"Starting socat proxy: $WG_IP:" + Itoa(fs[i].listen) + " -> " + fs[i].target + ":" + Itoa(fs[i].remote) + "\"\n"
                       + ("socat TCP-LISTEN:" + Itoa(fs[i].listen) + ",bind=$WG_IP,fork,reuseaddr TCP:" + fs[i].target + ":" + Itoa(fs[i].remote) + " &")
  {
    ls := seq(|fs|, i requires 0 <= i < |fs| =>
            "echo \"Starting socat proxy: $WG_IP:" + Itoa(fs[i].listen) + " -> " + fs[i].target + ":" + Itoa(fs[i].remote) + "\"\n"
            + ("socat TCP-LISTEN:" + Itoa(fs[i].listen) + ",bind=$WG_IP,fork,reuseaddr TCP:" + fs[i].target + ":" + Itoa(fs[i].remote) + " &"));
    IngressText(fs, ls);
  }

  lemma Chain(a: string, b: string, c: string)
    ensures (a + "\n" + b) + c == a + "\n" + (b + c)
  {
  }

  lemma Chain3(a: string, b: string, c: string)
    ensures (a + b) + "\n" + c == a + (b + "\n" + c)
  {
  }

  /** The egress command: one line of shell for each port of the Service, all to the DNS target, or to the IP
      target if there is no DNS target; each listens on the numeric target port and forwards to the
      same, or to the Service port if there is none. If the target is a host it reads back as that. */
  method BuildSocatCommand(targetIP: string, targetDNS: string, ports: seq<ServicePort>)
    returns (command: seq<string>, ghost lines: seq<string>)
    ensures command == Shell(Script(EGRESS_OPTIONS, false, EgressForwarders(TargetAddr(targetIP, targetDNS), ports)))
    ensures command == ["/bin/sh", "-c", Lines(lines) + "wait\n"] && |lines| == |ports|
    ensures forall i | 0 <= i < |ports| ::
              var addr := if targetDNS != "" then targetDNS else targetIP;
              var n := if ports[i].target.intVal != 0 then ports[i].target.intVal else ports[i].port;
              lines[i] == "socat TCP-LISTEN:" + Itoa(n) + ",fork,reuseaddr TCP:" + addr + ":" + Itoa(n) + " &"
    ensures
      var addr := if targetDNS != "" then targetDNS else targetIP;
      HostWord(addr) ==>
        && ReadScript(EGRESS_OPTIONS, false, command[2]).Some?
        && var fs := ReadScript(EGRESS_OPTIONS, false, command[2]).value;
        && |fs| == |ports|
        && forall i | 0 <= i < |fs| ::
             var n := if ports[i].target.intVal != 0 then ports[i].target.intVal else ports[i].port;
             fs[i] == Forwarder(n, addr, n)
  {
    var targetAddr := targetIP;
    if targetDNS != "" {
      targetAddr := targetDNS;
    }
    var socatCmds := "";
    ghost var fs := EgressForwarders(targetAddr, ports);
    for i := 0 to |ports|
      invariant socatCmds + Script(EGRESS_OPTIONS, false, fs[i..]) == Script(EGRESS_OPTIONS, false, fs)
    {
      var port := ports[i];
      var listenPort, netmakerPort := port.port, port.port;
      if port.target.intVal != 0 {
        listenPort, netmakerPort := port.target.intVal, port.target.intVal;
      } else if port.target.strVal != "" {
        listenPort, netmakerPort := port.port, port.port;
      }
      ScriptSnoc(EGRESS_OPTIONS, false, socatCmds, fs, i);
      assert fs[i] == Forwarder(listenPort, targetAddr, netmakerPort);
      assert socatCmds + "" == socatCmds;
      socatCmds := socatCmds + Line(EGRESS_OPTIONS, Forwarder(listenPort, targetAddr, netmakerPort)) + "\n";
    }
    socatCmds := socatCmds + WAIT;
    command := ["/bin/sh", "-c", socatCmds];
    lines := EgressLines(fs);
    EgressScriptMeaning(targetIP, targetDNS, ports);
  }

  method BuildProxyPorts(ports: seq<ServicePort>) returns (r: seq<ContainerPort>)
    ensures r == EgressPorts(ports)
    ensures |r| == |ports|
    ensures forall i | 0 <= i < |r| ::
              && r[i].name == ports[i].name && r[i].protocol == ports[i].protocol
              && r[i].port == (if ports[i].target.intVal != 0 then ports[i].target.intVal else ports[i].port)
  {
    r := [];
    for i := 0 to |ports|
      invariant r == EgressPorts(ports)[..i]
    {
      var port := ports[i];
      var containerPort := port.port;
      if port.target.intVal != 0 {
        containerPort := port.target.intVal;
      }
      r := r + [ContainerPort(port.name, containerPort, port.protocol)];
    }
  }

  method BuildEndpointPorts(ports: seq<ServicePort>) returns (r: seq<EndpointPort>)
    ensures r == EndpointPorts(ports)
    ensures |r| == |ports|
    ensures forall i | 0 <= i < |r| :: r[i] == EndpointPort(ports[i].name, ports[i].port, ports[i].protocol)
  {
    r := [];
    for i := 0 to |ports|
      invariant r == EndpointPorts(ports)[..i]
    {
      r := r + [EndpointPort(ports[i].name, ports[i].port, ports[i].protocol)];
    }
  }

  /** The ingress command: the bind address, configured or found out by the prelude; then for each port of the
      Service a message and a line of shell, from the port to the same port of the cluster address, or of
      the Service's cluster DNS name if it has none. If the addresses are hosts it reads back as that. */
  method BuildIngressSocatCommand(conf: Config, k: Key, svc: Service, bindIP: string)
    returns (command: seq<string>, ghost lines: seq<string>)
    ensures command == Shell(IngressScript(conf.prelude, bindIP, IngressForwarders(ServiceAddr(k, svc), svc.ports)))
    ensures
      var start := if bindIP == "" then conf.prelude else "WG_IP=" + bindIP + "\necho \"Using configured bind IP: $WG_IP\"\n";
      command == ["/bin/sh", "-c", start + (Lines(lines) + "wait\n")] && |lines| == |svc.ports|
    ensures forall i | 0 <= i < |svc.ports| ::
              var addr := if svc.clusterIP in ["", "None"] then k.name + "." + k.ns + ".svc.cluster.local" else svc.clusterIP;
              var n := Itoa(svc.ports[i].port);
              lines[i] == "echo \"Starting socat proxy: $WG_IP:" + n + " -> " + addr + ":" + n + "\"\n"
                          + ("socat TCP-LISTEN:" + n + ",bind=$WG_IP,fork,reuseaddr TCP:" + addr + ":" + n + " &")
    ensures
      var addr := if svc.clusterIP in ["", "None"] then k.name + "." + k.ns + ".svc.cluster.local" else svc.clusterIP;
      IsPrelude(conf.prelude) && HostWord(addr) && (bindIP == "" || HostWord(bindIP)) ==>
        && ReadIngress(conf.prelude, command[2]).Some?
        && var (bound, fs) := ReadIngress(conf.prelude, command[2]).value;
        && bound == bindIP && |fs| == |svc.ports|
        && forall i | 0 <= i < |fs| :: fs[i] == Forwarder(svc.ports[i].port, addr, svc.ports[i].port)
  {
    var script := WriteIngressScript(conf, k, svc, bindIP);
    command := ["/bin/sh", "-c", script];
    ghost var fs := IngressForwarders(ServiceAddr(k, svc), svc.ports);
    lines := IngressLines(fs);
    BindText(conf.prelude, bindIP);
    IngressReads(conf, k, svc, bindIP);
  }

  method WriteIngressScript(conf: Config, k: Key, svc: Service, bindIP: string) returns (socatCmds: string)
    ensures socatCmds == IngressScript(conf.prelude, bindIP, IngressForwarders(ServiceAddr(k, svc), svc.ports))
  {
    var serviceAddr := svc.clusterIP;
    if serviceAddr == "" || serviceAddr == "None" {
      serviceAddr := k.name + "." + k.ns + ".svc.cluster.local";
    }
    if bindIP == "" {
      socatCmds := conf.prelude;
    } else {
      socatCmds := BIND + bindIP + "\n" + CONFIGURED;
    }
    ghost var fs := IngressForwarders(serviceAddr, svc.ports);
    for i := 0 to |svc.ports|
      invariant socatCmds + Script(INGRESS_OPTIONS, true, fs[i..]) == IngressScript(conf.prelude, bindIP, fs)
    {
      var f := Forwarder(svc.ports[i].port, serviceAddr, svc.ports[i].port);
      ScriptSnoc(INGRESS_OPTIONS, true, socatCmds, fs, i);
      var echo := socatCmds + (EchoLine(f) + "\n");
      socatCmds := echo + Line(INGRESS_OPTIONS, f) + "\n";
    }
    socatCmds := socatCmds + WAIT;
  }

  lemma IngressReads(conf: Config, k: Key, svc: Service, bindIP: string)
    ensures
      var addr, fs := ServiceAddr(k, svc), IngressForwarders(ServiceAddr(k, svc), svc.ports);
      IsPrelude(conf.prelude) && HostWord(addr) && (bindIP == "" || HostWord(bindIP)) ==>
        ReadIngress(conf.prelude, IngressScript(conf.prelude, bindIP, fs)) == Some((bindIP, fs))
  {
    if IsPrelude(conf.prelude) {
      IngressScriptMeaning(conf, k, svc, bindIP);
    }
  }

  lemma BindText(prelude: string, bindIP: string)
    ensures BindPart(prelude, bindIP)
         == if bindIP == "" then prelude else "WG_IP=" + bindIP + "\necho \"Using configured bind IP: $WG_IP\"\n"
  {
    assert BindPart(prelude, "") == prelude;
    assert "\n" + CONFIGURED == "\necho \"Using configured bind IP: $WG_IP\"\n";
    assert BIND + bindIP + "\n" + CONFIGURED == BIND + bindIP + ("\n" + CONFIGURED);
  }

  method BuildIngressProxyPorts(ports: seq<ServicePort>) returns (r: seq<ContainerPort>)
    ensures r == IngressPorts(ports)
    ensures |r| == |ports|
    ensures forall i | 0 <= i < |r| :: r[i] == ContainerPort(ports[i].name, ports[i].port, ports[i].protocol)
  {
    r := [];
    for i := 0 to |ports|
      invariant r == IngressPorts(ports)[..i]
    {
      r := r + [ContainerPort(ports[i].name, ports[i].port, ports[i].protocol)];
    }
  }

  // ---------- What the loops mean together ----------

  /** The script of an egress pod reads as exactly one forwarder for each Service port, in order, if and
      only if the target is a host: a name, an IPv4 address, or an IPv6 address in brackets. */
  lemma EgressScriptMeaning(targetIP: string, targetDNS: string, ports: seq<ServicePort>)
    ensures
      var fs := EgressForwarders(TargetAddr(targetIP, targetDNS), ports);
      ReadScript(EGRESS_OPTIONS, false, Script(EGRESS_OPTIONS, false, fs)) == Some(fs)
      <==> (ports == [] || HostWord(TargetAddr(targetIP, targetDNS)))
  {
    var addr := TargetAddr(targetIP, targetDNS);
    var fs := EgressForwarders(addr, ports);
    ReadScriptExact(EGRESS_OPTIONS, false, Script(EGRESS_OPTIONS, false, fs), fs);
    if ports != [] {
      assert fs[0].target == addr;
    }
  }

  /** Two Services get the same egress script only if they forward the same ports to the same host. */
  lemma EgressScriptInjective(addr: string, ports: seq<ServicePort>, addr': string, ports': seq<ServicePort>)
    requires NoSpace(addr) && NoSpace(addr')
    requires Script(EGRESS_OPTIONS, false, EgressForwarders(addr, ports))
          == Script(EGRESS_OPTIONS, false, EgressForwarders(addr', ports'))
    ensures |ports| == |ports'| && (ports != [] ==> addr == addr')
    ensures forall i | 0 <= i < |ports| :: ListenPort(ports[i]) == ListenPort(ports'[i])
  {
    var fs, fs' := EgressForwarders(addr, ports), EgressForwarders(addr', ports');
    assert fs == fs' by {
      ScriptDecodes(EGRESS_OPTIONS, false, fs);
      ScriptDecodes(EGRESS_OPTIONS, false, fs');
    }
    forall i | 0 <= i < |ports| ensures ListenPort(ports[i]) == ListenPort(ports'[i]) {
      assert fs[i] == fs'[i];
    }
    if ports != [] {
      assert fs[0] == fs'[0];
    }
  }

  /** The ingress script reads as one forwarder for each Service port, from the bind address to the same
      port of the Service's own address, if and only if both addresses are hosts. */
  lemma IngressScriptMeaning(conf: Config, k: Key, svc: Service, bindIP: string)
    requires IsPrelude(conf.prelude)
    ensures
      var fs := IngressForwarders(ServiceAddr(k, svc), svc.ports);
      ReadIngress(conf.prelude, IngressScript(conf.prelude, bindIP, fs)) == Some((bindIP, fs))
      <==> (bindIP == "" || HostWord(bindIP)) && (svc.ports == [] || HostWord(ServiceAddr(k, svc)))
  {
    var fs := IngressForwarders(ServiceAddr(k, svc), svc.ports);
    ReadIngressExact(conf.prelude, IngressScript(conf.prelude, bindIP, fs), bindIP, fs);
    if svc.ports != [] {
      assert fs[0].target == ServiceAddr(k, svc);
    }
  }

  /** The three egress loops agree on what port i listens on: the container port always, the endpoint
      port exactly when every numeric target port is absent or repeats the Service port. */
  lemma ThreeLoopsAgree(addr: string, ports: seq<ServicePort>)
    ensures |EgressPorts(ports)| == |EgressForwarders(addr, ports)| == |EndpointPorts(ports)|
    ensures forall i | 0 <= i < |ports| :: EgressPorts(ports)[i].port == EgressForwarders(addr, ports)[i].listen
    ensures (forall i | 0 <= i < |ports| :: EndpointPorts(ports)[i].port == EgressForwarders(addr, ports)[i].listen)
       <==> (forall p | p in ports :: p.target.intVal == 0 || p.target.intVal == p.port)
  {
    if forall i | 0 <= i < |ports| :: EndpointPorts(ports)[i].port == EgressForwarders(addr, ports)[i].listen {
      forall p | p in ports ensures p.target.intVal == 0 || p.target.intVal == p.port {
        var i :| 0 <= i < |ports| && ports[i] == p;
        assert EndpointPorts(ports)[i].port == EgressForwarders(addr, ports)[i].listen;
      }
    }
  }

  // ---------- The netclient token ----------

  function SecretName(conf: Config, svc: Service): string {
    EnvOr(svc.annotations, "netmaker.io/secret-name", EnvOr(conf.env, "NETCLIENT_SECRET_NAME", "netclient-token"))
  }

  function SecretKey(conf: Config, svc: Service): string {
    EnvOr(svc.annotations, "netmaker.io/secret-key", EnvOr(conf.env, "NETCLIENT_SECRET_KEY", "token"))
  }

  function OperatorNamespace(conf: Config): string {
    EnvOr(conf.env, "OPERATOR_NAMESPACE", "netmaker-k8s-ops-system")
  }

  /** The value of the configured key in the configured secret of a namespace. */
  function SecretValue(conf: Config, svc: Service, secrets: Secrets, ns: string): Option<string> {
    match Lookup(secrets, Key(ns, SecretName(conf, svc)))
    case None => None
    case Some(data) => Lookup(data, SecretKey(conf, svc))
  }

  function OrElse(a: Option<string>, b: Option<string>): Option<string> {
    if a.Some? then a else b
  }

  /** A read of the secret store: nothing comes back when the call fails. */
  function ReadSecret(conf: Config, svc: Service, secrets: Secrets, ns: string, ok: bool): Option<string> {
    if ok then SecretValue(conf, svc, secrets, ns) else None
  }

  function OrEmpty(a: Option<string>): string {
    match a case Some(v) => v case None => ""
  }

  /** The environment of the netclient container: `found` when the secret of the Service's own
      namespace was seen again while building it, else the token looked up before. */
  function NetclientEnv(conf: Config, svc: Service, found: bool, token: string): seq<EnvVar> {
    [Inline("DAEMON", "on"), Inline("LOG_LEVEL", "info"),
     if found then FromSecret("TOKEN", SecretName(conf, svc), SecretKey(conf, svc)) else Inline("TOKEN", token)]
  }

  /** What the kubelet substitutes for a variable of a pod in namespace `ns`. */
  function Resolve(v: EnvVar, secrets: Secrets, ns: string): Option<string> {
    match v
    case Inline(_, value) => Some(value)
    case FromSecret(_, name, key) =>
      match Lookup(secrets, Key(ns, name))
      case None => None
      case Some(data) => Lookup(data, key)
  }

  /** All values an environment gives to a name, in order. */
  function Resolutions(env: seq<EnvVar>, name: string, secrets: Secrets, ns: string): seq<Option<string>> {
    if env == [] then []
    else (if env[0].name == name then [Resolve(env[0], secrets, ns)] else []) + Resolutions(env[1..], name, secrets, ns)
  }

  /** The intended token: the Service's namespace before the operator's namespace before empty. */
  function Intended(conf: Config, k: Key, svc: Service, secrets: Secrets): string {
    OrEmpty(OrElse(SecretValue(conf, svc, secrets, k.ns), SecretValue(conf, svc, secrets, OperatorNamespace(conf))))
  }

  /** The environment that three reads produce, each against its own state of the secret store and each
      possibly failing: own namespace, operator namespace, own namespace again. */
  function EnvFromReads(conf: Config, k: Key, svc: Service,
                        s1: Secrets, ok1: bool, s2: Secrets, ok2: bool, s3: Secrets, ok3: bool): seq<EnvVar> {
    var first := ReadSecret(conf, svc, s1, k.ns, ok1);
    var token := OrEmpty(OrElse(first, ReadSecret(conf, svc, s2, OperatorNamespace(conf), ok2)));
    NetclientEnv(conf, svc, ReadSecret(conf, svc, s3, k.ns, ok3).Some?, token)
  }

  lemma ResolutionsOfNetclientEnv(conf: Config, svc: Service, found: bool, token: string, secrets: Secrets, ns: string)
    ensures Resolutions(NetclientEnv(conf, svc, found, token), "TOKEN", secrets, ns)
         == [if found then SecretValue(conf, svc, secrets, ns) else Some(token)]
  {
    var env := NetclientEnv(conf, svc, found, token);
    var last := env[2..];
    assert last[1..] == [];
    assert Resolutions(last, "TOKEN", secrets, ns) == [Resolve(env[2], secrets, ns)] + [];
    assert env[1..][1..] == last;
    assert Resolutions(env[1..], "TOKEN", secrets, ns) == [] + Resolutions(last, "TOKEN", secrets, ns);
  }

  /** There is exactly one TOKEN entry whatever the reads returned. When every call succeeds but the
      store changes underneath, the entry resolves to the last read of the own namespace if that found
      the secret, and otherwise to the first own-namespace read, then the operator-namespace read. */
  lemma TokenUnderChange(conf: Config, k: Key, svc: Service, s1: Secrets, s2: Secrets, s3: Secrets)
    ensures
      var own, op := SecretValue(conf, svc, s1, k.ns), SecretValue(conf, svc, s2, OperatorNamespace(conf));
      Resolutions(EnvFromReads(conf, k, svc, s1, true, s2, true, s3, true), "TOKEN", s3, k.ns)
      == [Some(OrEmpty(OrElse(SecretValue(conf, svc, s3, k.ns), OrElse(own, op))))]
  {
    var own, op := SecretValue(conf, svc, s1, k.ns), SecretValue(conf, svc, s2, OperatorNamespace(conf));
    ResolutionsOfNetclientEnv(conf, svc, SecretValue(conf, svc, s3, k.ns).Some?, OrEmpty(OrElse(own, op)), s3, k.ns);
  }

  /** Which secret is read, and which field of it: what the Service's annotations say, else the operator's
      environment, else the defaults. The operator namespace has an environment variable and a default. */
  lemma SecretRead(conf: Config, svc: Service, secrets: Secrets, ns: string)
    ensures
      var name := FirstNonEmpty([ValueOf(svc.annotations, "netmaker.io/secret-name"), ValueOf(conf.env, "NETCLIENT_SECRET_NAME"),
                                 "netclient-token"]);
      var field := FirstNonEmpty([ValueOf(svc.annotations, "netmaker.io/secret-key"), ValueOf(conf.env, "NETCLIENT_SECRET_KEY"),
                                  "token"]);
      SecretValue(conf, svc, secrets, ns)
      == if HasField(secrets, Key(ns, name), field) then Some(secrets[Key(ns, name)][field]) else None
    ensures OperatorNamespace(conf) == FirstNonEmpty([ValueOf(conf.env, "OPERATOR_NAMESPACE"), "netmaker-k8s-ops-system"])
  {
    SecretNames(conf, svc);
    FirstOfTwo(ValueOf(conf.env, "OPERATOR_NAMESPACE"), "netmaker-k8s-ops-system");
  }

  lemma SecretNames(conf: Config, svc: Service)
    ensures SecretName(conf, svc)
         == FirstNonEmpty([ValueOf(svc.annotations, "netmaker.io/secret-name"), ValueOf(conf.env, "NETCLIENT_SECRET_NAME"),
                           "netclient-token"])
    ensures SecretKey(conf, svc)
         == FirstNonEmpty([ValueOf(svc.annotations, "netmaker.io/secret-key"), ValueOf(conf.env, "NETCLIENT_SECRET_KEY"), "token"])
  {
    FirstOfThree(ValueOf(svc.annotations, "netmaker.io/secret-name"), ValueOf(conf.env, "NETCLIENT_SECRET_NAME"), "netclient-token");
    FirstOfThree(ValueOf(svc.annotations, "netmaker.io/secret-key"), ValueOf(conf.env, "NETCLIENT_SECRET_KEY"), "token");
  }

  /** The environment around the token, and the secret that a reference names. */
  lemma NetclientEnvIs(conf: Config, svc: Service, found: bool, token: string)
    ensures
      var name := FirstNonEmpty([ValueOf(svc.annotations, "netmaker.io/secret-name"), ValueOf(conf.env, "NETCLIENT_SECRET_NAME"),
                                 "netclient-token"]);
      var field := FirstNonEmpty([ValueOf(svc.annotations, "netmaker.io/secret-key"), ValueOf(conf.env, "NETCLIENT_SECRET_KEY"),
                                  "token"]);
      var env := NetclientEnv(conf, svc, found, token);
      && |env| == 3 && env[0] == Inline("DAEMON", "on") && env[1] == Inline("LOG_LEVEL", "info")
      && (found ==> env[2] == FromSecret("TOKEN", name, field)) && (!found ==> env[2] == Inline("TOKEN", token))
  {
    SecretNames(conf, svc);
  }

  /** The same as `TokenUnderChange` in terms of what the secrets hold: the pod's token is the field of the
      named secret in the Service's namespace as the last read saw it; else as the first read saw it;
      else that of the secret of the same name in the operator's namespace; else empty. */
  lemma TokenFromSecrets(conf: Config, k: Key, svc: Service, s1: Secrets, s2: Secrets, s3: Secrets)
    ensures
      var name := FirstNonEmpty([ValueOf(svc.annotations, "netmaker.io/secret-name"), ValueOf(conf.env, "NETCLIENT_SECRET_NAME"),
                                 "netclient-token"]);
      var field := FirstNonEmpty([ValueOf(svc.annotations, "netmaker.io/secret-key"), ValueOf(conf.env, "NETCLIENT_SECRET_KEY"),
                                  "token"]);
      var own := Key(k.ns, name);
      var op := Key(FirstNonEmpty([ValueOf(conf.env, "OPERATOR_NAMESPACE"), "netmaker-k8s-ops-system"]), name);
      Resolutions(EnvFromReads(conf, k, svc, s1, true, s2, true, s3, true), "TOKEN", s3, k.ns)
      == [Some(if HasField(s3, own, field) then s3[own][field]
               else if HasField(s1, own, field) then s1[own][field]
               else if HasField(s2, op, field) then s2[op][field]
               else "")]
  {
    TokenUnderChange(conf, k, svc, s1, s2, s3);
    SecretRead(conf, svc, s1, k.ns);
    SecretRead(conf, svc, s2, OperatorNamespace(conf));
    SecretRead(conf, svc, s3, k.ns);
  }

  /** With a stable store, failed reads are swallowed; the entry still resolves to the intended token
      exactly when the reads that went through suffice: for a secret in the own namespace either of
      its two reads, or an operator-namespace secret with the same value read instead (or an empty
      token); for a secret only in the operator namespace its one read. */
  lemma TokenUnderFailure(conf: Config, k: Key, svc: Service, s: Secrets, ok1: bool, ok2: bool, ok3: bool)
    ensures
      var own, op := SecretValue(conf, svc, s, k.ns), SecretValue(conf, svc, s, OperatorNamespace(conf));
      var fallback := OrEmpty(if ok2 then op else None);
      Resolutions(EnvFromReads(conf, k, svc, s, ok1, s, ok2, s, ok3), "TOKEN", s, k.ns) == [Some(Intended(conf, k, svc, s))]
      <==> (if own.Some? then ok1 || ok3 || fallback == own.value else fallback == OrEmpty(op))
  {
    var own, op := SecretValue(conf, svc, s, k.ns), SecretValue(conf, svc, s, OperatorNamespace(conf));
    var first := ReadSecret(conf, svc, s, k.ns, ok1);
    var token := OrEmpty(OrElse(first, ReadSecret(conf, svc, s, OperatorNamespace(conf), ok2)));
    var found := ReadSecret(conf, svc, s, k.ns, ok3).Some?;
    ResolutionsOfNetclientEnv(conf, svc, found, token, s, k.ns);
  }

  // ---------- The pod ----------

  function NetclientContainer(conf: Config, netEnv: seq<EnvVar>): Container {
    Container("netclient", EnvOr(conf.env, "NETCLIENT_IMAGE", "gravitl/netclient:v1.4.0"), netEnv,
              [Mount("etc-netclient", "/etc/netclient"), Mount("log-netclient", "/var/log")], [], [], "")
  }

  function NetclientVolumes(): seq<Volume> {
    [Volume("etc-netclient", EmptyDir(false)), Volume("log-netclient", EmptyDir(true))]
  }

  /** The pod of a controller around the ports and the command of its proxy container. */
  function PodAround(conf: Config, ctl: Ctl, k: Key, svc: Service, netEnv: seq<EnvVar>,
                     ports: seq<ContainerPort>, command: seq<string>): PodSpec {
    match ctl
    case Egress =>
      PodSpec(
        map["app" := "netmaker-egress-proxy", "service-name" := k.name, "managed-by" := "netmaker-k8s-ops",
            "netmaker.io/egress" := "enabled"],
        map[], Owner(k.name, svc.uid),
        [NetclientContainer(conf, netEnv),
         Container("proxy", EnvOr(conf.env, "EGRESS_PROXY_IMAGE", "alpine/socat:latest"), [], [], ports, command, "")],
        NetclientVolumes())
    case Ingress =>
      PodSpec(
        map["app" := "netmaker-ingress-proxy", "service-name" := k.name, "managed-by" := "netmaker-k8s-ops",
            "netmaker.io/ingress" := "enabled"],
        map["netmaker.io/ingress-dns-name" := ValueOf(svc.annotations, "netmaker.io/ingress-dns-name")],
        Owner(k.name, svc.uid),
        [NetclientContainer(conf, netEnv),
         Container("proxy", EnvOr(conf.env, "INGRESS_PROXY_IMAGE", "alpine/socat:latest"),
                   [Inline("SERVICE_NAME", k.name), Inline("SERVICE_NAMESPACE", k.ns)], [], ports, command, "")],
        NetclientVolumes())
  }

  function EgressCommand(svc: Service): seq<string> {
    Shell(Script(EGRESS_OPTIONS, false, EgressForwarders(TargetAddr(TargetIP(svc), TargetDNS(svc)), svc.ports)))
  }

  function BindIP(svc: Service): string {
    ValueOf(svc.annotations, "netmaker.io/ingress-bind-ip")
  }

  function IngressCommand(conf: Config, k: Key, svc: Service): seq<string> {
    Shell(IngressScript(conf.prelude, BindIP(svc), IngressForwarders(ServiceAddr(k, svc), svc.ports)))
  }

  function BuildPod(conf: Config, ctl: Ctl, k: Key, svc: Service, netEnv: seq<EnvVar>): PodSpec {
    match ctl
    case Egress => PodAround(conf, ctl, k, svc, netEnv, EgressPorts(svc.ports), EgressCommand(svc))
    case Ingress => PodAround(conf, ctl, k, svc, netEnv, IngressPorts(svc.ports), IngressCommand(conf, k, svc))
  }

  method BuildProxyPod(conf: Config, ctl: Ctl, k: Key, svc: Service, netEnv: seq<EnvVar>) returns (spec: PodSpec)
    ensures spec == BuildPod(conf, ctl, k, svc, netEnv)
  {
    match ctl
    case Egress =>
      var ports := BuildProxyPorts(svc.ports);
      var command, _ := BuildSocatCommand(TargetIP(svc), TargetDNS(svc), svc.ports);
      spec := PodAround(conf, ctl, k, svc, netEnv, ports, command);
    case Ingress =>
      var ports := BuildIngressProxyPorts(svc.ports);
      var command, _ := BuildIngressSocatCommand(conf, k, svc, BindIP(svc));
      spec := PodAround(conf, ctl, k, svc, netEnv, ports, command);
  }

  /** The pod, field by field: its labels, annotations and owner. */
  lemma PodIdentity(conf: Config, ctl: Ctl, k: Key, svc: Service, netEnv: seq<EnvVar>)
    ensures
      var spec := BuildPod(conf, ctl, k, svc, netEnv);
      var mark := if ctl.Egress? then "netmaker.io/egress" else "netmaker.io/ingress";
      && spec.owner.name == k.name && spec.owner.uid == svc.uid
      && spec.labels.Keys == {"app", "service-name", "managed-by", mark}
      && Says(spec.labels, "app", if ctl.Egress? then "netmaker-egress-proxy" else "netmaker-ingress-proxy")
      && Says(spec.labels, "service-name", k.name) && Says(spec.labels, "managed-by", "netmaker-k8s-ops")
      && Says(spec.labels, mark, "enabled")
      && spec.annotations.Keys == (if ctl.Egress? then {} else {"netmaker.io/ingress-dns-name"})
      && (ctl.Ingress? ==> spec.annotations["netmaker.io/ingress-dns-name"] == ValueOf(svc.annotations, "netmaker.io/ingress-dns-name"))
  {
  }

  /** Its two containers and their volumes. */
  lemma PodContainers(conf: Config, ctl: Ctl, k: Key, svc: Service, netEnv: seq<EnvVar>)
    ensures
      var spec := BuildPod(conf, ctl, k, svc, netEnv);
      && |spec.containers| == 2
      && var netclient, proxy := spec.containers[0], spec.containers[1];
      && netclient.name == "netclient" && proxy.name == "proxy" && netclient.env == netEnv
      && netclient.image == FirstNonEmpty([ValueOf(conf.env, "NETCLIENT_IMAGE"), "gravitl/netclient:v1.4.0"])
      && proxy.image == FirstNonEmpty([ValueOf(conf.env, if ctl.Egress? then "EGRESS_PROXY_IMAGE" else "INGRESS_PROXY_IMAGE"),
                                       "alpine/socat:latest"])
      && proxy.env == (if ctl.Egress? then [] else [Inline("SERVICE_NAME", k.name), Inline("SERVICE_NAMESPACE", k.ns)])
      && proxy.mounts == [] && netclient.command == [] && netclient.ports == []
      && netclient.mounts == [Mount("etc-netclient", "/etc/netclient"), Mount("log-netclient", "/var/log")]
      && spec.volumes == [Volume("etc-netclient", EmptyDir(false)), Volume("log-netclient", EmptyDir(true))]
  {
    FirstOfTwo(ValueOf(conf.env, "NETCLIENT_IMAGE"), "gravitl/netclient:v1.4.0");
    FirstOfTwo(ValueOf(conf.env, if ctl.Egress? then "EGRESS_PROXY_IMAGE" else "INGRESS_PROXY_IMAGE"), "alpine/socat:latest");
  }

  /** And what its proxy runs: for egress, forwarders from each numeric target port, or Service port if there is
      none, to the same port of the DNS target, or the IP target if there is none. */
  lemma EgressPodForwards(conf: Config, k: Key, svc: Service, netEnv: seq<EnvVar>)
    ensures
      var addr := FirstNonEmpty([ValueOf(svc.annotations, "netmaker.io/egress-target-dns"),
                                 ValueOf(svc.annotations, "netmaker.io/egress-target-ip")]);
      var proxy := BuildPod(conf, Egress, k, svc, netEnv).containers[1];
      && |proxy.command| == 3 && proxy.command[..2] == ["/bin/sh", "-c"]
      && (HostWord(addr) ==>
            && ReadScript(EGRESS_OPTIONS, false, proxy.command[2]).Some?
            && var fs := ReadScript(EGRESS_OPTIONS, false, proxy.command[2]).value;
            && Declares(proxy, fs) && |fs| == |svc.ports|
            && forall i | 0 <= i < |fs| ::
                 var n := if svc.ports[i].target.intVal != 0 then svc.ports[i].target.intVal else svc.ports[i].port;
                 fs[i] == Forwarder(n, addr, n))
  {
    AddrIs(svc);
    EgressScriptMeaning(TargetIP(svc), TargetDNS(svc), svc.ports);
    var proxy := BuildPod(conf, Egress, k, svc, netEnv).containers[1];
    assert proxy.command == EgressCommand(svc) && proxy.ports == EgressPorts(svc.ports);
  }

  /** For ingress, forwarders from the bind address to the same port of the cluster address or DNS name. */
  lemma IngressPodForwards(conf: Config, k: Key, svc: Service, netEnv: seq<EnvVar>)
    requires IsPrelude(conf.prelude)
    ensures
      var addr := if svc.clusterIP in ["", "None"] then k.name + "." + k.ns + ".svc.cluster.local" else svc.clusterIP;
      var bindIP := ValueOf(svc.annotations, "netmaker.io/ingress-bind-ip");
      var proxy := BuildPod(conf, Ingress, k, svc, netEnv).containers[1];
      && |proxy.command| == 3 && proxy.command[..2] == ["/bin/sh", "-c"]
      && (HostWord(addr) && (bindIP == "" || HostWord(bindIP)) ==>
            && ReadIngress(conf.prelude, proxy.command[2]).Some?
            && var (bound, fs) := ReadIngress(conf.prelude, proxy.command[2]).value;
            && bound == bindIP && Declares(proxy, fs) && |fs| == |svc.ports|
            && forall i | 0 <= i < |fs| :: fs[i] == Forwarder(svc.ports[i].port, addr, svc.ports[i].port))
  {
    IngressReads(conf, k, svc, BindIP(svc));
    var proxy := BuildPod(conf, Ingress, k, svc, netEnv).containers[1];
    assert proxy.command == IngressCommand(conf, k, svc) && proxy.ports == IngressPorts(svc.ports);
  }

  /** The ports that a container declares are those its forwarders listen on, in order. */
  predicate Declares(c: Container, fs: seq<Forwarder>) {
    |c.ports| == |fs| && forall i | 0 <= i < |fs| :: c.ports[i].port == fs[i].listen
  }

  /** What a built pod does as a whole: its proxy container runs a script that reads as forwarders to one
      host, on exactly the ports the container declares, exactly if the addresses are hosts. */
  lemma ProxyContainerServes(conf: Config, ctl: Ctl, k: Key, svc: Service, netEnv: seq<EnvVar>)
    requires IsPrelude(conf.prelude)
    ensures
      var spec := BuildPod(conf, ctl, k, svc, netEnv);
      var proxy := spec.containers[1];
      && |spec.containers| == 2 && spec.containers[0].env == netEnv
      && proxy.command[..2] == ["/bin/sh", "-c"] && |proxy.command| == 3
      && match ctl
         case Egress =>
           var addr := TargetAddr(TargetIP(svc), TargetDNS(svc));
           var fs := EgressForwarders(addr, svc.ports);
           Declares(proxy, fs)
           && (ReadScript(EGRESS_OPTIONS, false, proxy.command[2]) == Some(fs) <==> svc.ports == [] || HostWord(addr))
         case Ingress =>
           var addr := ServiceAddr(k, svc);
           var fs := IngressForwarders(addr, svc.ports);
           Declares(proxy, fs)
           && (ReadIngress(conf.prelude, proxy.command[2]) == Some((BindIP(svc), fs))
               <==> (BindIP(svc) == "" || HostWord(BindIP(svc))) && (svc.ports == [] || HostWord(addr)))
  {
    match ctl
    case Egress => EgressScriptMeaning(TargetIP(svc), TargetDNS(svc), svc.ports);
    case Ingress => IngressScriptMeaning(conf, k, svc, BindIP(svc));
  }

  function ListensOn(ctl: Ctl, p: ServicePort): int {
    match ctl case Egress => ListenPort(p) case Ingress => p.port
  }

  function ForwardersOf(ctl: Ctl, k: Key, svc: Service): seq<Forwarder> {
    match ctl
    case Egress => EgressForwarders(TargetAddr(TargetIP(svc), TargetDNS(svc)), svc.ports)
    case Ingress => IngressForwarders(ServiceAddr(k, svc), svc.ports)
  }

  /** Each declared port has a forwarder of its own and under its own protocol. Every forwarder listens on
      TCP, and no two can listen on one port. */
  predicate ServedAsDeclared(c: Container, fs: seq<Forwarder>) {
    && Declares(c, fs)
    && (forall p | p in c.ports :: p.protocol == "TCP")
    && forall i, j | 0 <= i < j < |fs| :: fs[i].listen != fs[j].listen
  }

  /** The generators neither look at protocols nor merge ports: a pod serves all that it declares exactly if
      all ports of the Service are TCP and no two of them lead to one listen port. */
  lemma ServedExactly(conf: Config, ctl: Ctl, k: Key, svc: Service, netEnv: seq<EnvVar>)
    ensures
      ServedAsDeclared(BuildPod(conf, ctl, k, svc, netEnv).containers[1], ForwardersOf(ctl, k, svc))
      <==> && (forall p | p in svc.ports :: p.protocol == "TCP")
           && forall i, j | 0 <= i < j < |svc.ports| :: ListensOn(ctl, svc.ports[i]) != ListensOn(ctl, svc.ports[j])
  {
    var proxy, fs := BuildPod(conf, ctl, k, svc, netEnv).containers[1], ForwardersOf(ctl, k, svc);
    assert Declares(proxy, fs) && |fs| == |svc.ports|;
    assert forall i | 0 <= i < |fs| :: fs[i].listen == ListensOn(ctl, svc.ports[i]);
    assert forall i | 0 <= i < |fs| :: proxy.ports[i].protocol == svc.ports[i].protocol;
    if forall p | p in proxy.ports :: p.protocol == "TCP" {
      forall p | p in svc.ports ensures p.protocol == "TCP" {
        var i :| 0 <= i < |svc.ports| && svc.ports[i] == p;
        assert proxy.ports[i] in proxy.ports;
      }
    }
  }
}

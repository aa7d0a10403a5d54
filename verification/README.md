# Netmaker operator: a verified model of its controllers, webhook and proxy

The operator watches Services and keeps two kinds of proxy pods for them, injects a netclient sidecar
into admitted workloads, and runs an API proxy that maps WireGuard peers to users. This project models
that behaviour in Dafny and proves what it promises, including where it does not hold.

- `Kube`, `Text`: the Kubernetes objects as values; numerals, cutting, trimming.
- `ProxyScript`, `ProxyPod`: the generated shell scripts with decoders, the three loops over Service
  ports, the token look-ups, the pods.
- `Protocol`: both controllers as a transition system. `React` is one API call of one reconcile,
  `Apply` one step of the cluster (user edits, kubelet status, eviction, operator restart, requeue,
  dequeue, a call that succeeds, is lost, or takes effect although an error is returned). A cluster is
  shown to be a product of cells, one for each controller and Service key.
- `History`, `Quiescence`, `PodOrigin`: invariants and history properties over all runs.
- `QuietEndpoints`: what the Endpoints of an egress Service hold, and when they outlive the pod they name.
- `Drain`, `Convergence`: the reference result of a reconcile, confluence, termination.
- `Recovery`: which failed calls change the end result, position by position, exactly.
- `Limits`: what convergence does not give.
- `Traffic`: what an edit does to a standing pod, and whether Endpoints and script still fit together.
- `ClusterState`, `Alone`: the reconcilers as imperative code over a mutable
  cluster with a schedule of interference and failures, proved to produce runs of the protocol.
- `Injection`, `Webhook`: sidecar injection and persistent volume claims.
- `UserMap`, `Groups`, `Backoff`: peer identities, group lists, the wait for the interface.

Assumptions of the model: reads are linearizable; a change of a Service queues its key for both
controllers at once; deleting a pod is atomic; only the controllers create pods under the proxy names
and nobody but them and an eviction removes those; owner-reference garbage collection does not act; one
controller never works twice at once on a key. Configuration from the environment is a constant map.

What the code does not give is proved as well:

- both proxies of one Service can stand side by side (exactly when: `BothProxiesExactly`);
- a lost secret read can freeze an empty token into a pod (`LostSecretReadIsFrozen`; exactly when:
  `EnvUnderFailure`), and a failed call on an outdated snapshot can decide which version's pod is made
  (`StaleSnapshotMatters`); `CallKeepsGoal` has the exact condition for every call;
- an edit reaches the Endpoints but not the pod that stands (`EditReachesOnlyEndpoints`, a harmful one in
  `HarmfulEdit`; exactly when it does no harm: `EditHarmlessExactly`; exactly when Endpoints and script still
  fit: `TrafficArrivesExactly`);
- disabling or deleting a Service removes the pod and leaves the Endpoints naming it
  (`DisablingLeavesEndpoints`; exactly when: `EndpointsDangleExactly`);
- a pod that starts or moves after the last look is not followed by the Endpoints, so a first egress proxy stays
  without them (`FirstEndpointsNeverCome`; exactly when: `EndpointsRightExactly`);
- a restart can orphan pods and an eviction goes unnoticed (`RestartOrphans`, `PodChangesUnnoticed`; exactly when:
  `QuietPods`);
- Endpoints and script disagree on ports when a numeric target port differs (`ThreeLoopsAgree`), a port that is not
  TCP or shares its target port is not served (`ServedExactly`), and a target that is no plain host, such as an
  IPv6 address without brackets, spoils the script (`EgressScriptMeaning`);
- injection can clash with an init container called netclient (`InjectionKeepsNamesDistinct`).

Where code and documentation disagree the model follows the code: TOKEN_CONFIGURATION.md says that proxy
pods take secrets from the operator namespace only, while the code looks in the Service's namespace
first; examples/EGRESS_PROXY_GUIDE.md speaks of nginx, while the code runs socat.

## Model

| member | source | states |
|---|---|---|
| Text.ItoaParse | internal/controller/egress_proxy_controller.go:265 | a text parses to an integer exactly if it is the decimal the script generator prints for it, for all integers |
| Text.DecimalPlaces | internal/controller/egress_proxy_controller.go:265 | the numerals are decimal, place by place |
| ProxyPod.AddrIs | internal/controller/egress_proxy_controller.go:98-107 | egress goes to the DNS target if one is given, else to the IP target; there is an address exactly if either is given |
| ProxyPod.WantedExactly | internal/controller/egress_proxy_controller.go:53-76 | an egress pod is wanted exactly if the annotation says enabled and there is an address to forward to, an ingress pod exactly if ingress is enabled and egress is not; a pod is to go exactly if its annotation does not say enabled |
| ProxyScript.DecodeLineExact | internal/controller/egress_proxy_controller.go:263-265 | a line decodes to (listen port, target, remote port) exactly if it is the generated line and the target has no white space; the port follows the last colon |
| ProxyScript.DecodeScriptExact | internal/controller/egress_proxy_controller.go:246-269 | a text decodes to a forwarder list exactly if it is the script of that list ending in `wait`; decoding is unique |
| ProxyScript.DecodeIngressExact | internal/controller/ingress_proxy_controller.go:262-344 | the same for the ingress script behind its bind prelude, recovering the bind address too |
| ProxyPod.BuildSocatCommand | internal/controller/egress_proxy_controller.go:236-273 | the exact text, one line per Service port; with a host as target it reads back as forwarders to the DNS target, or the IP target without one, from the numeric target port, or the Service port without one |
| ProxyPod.BuildProxyPorts | internal/controller/egress_proxy_controller.go:277-292 | container ports are the ports socat listens on, in order |
| ProxyPod.BuildEndpointPorts | internal/controller/egress_proxy_controller.go:357-364 | endpoint ports are the Service ports, in order |
| ProxyPod.BuildIngressSocatCommand | internal/controller/ingress_proxy_controller.go:253-348 | the exact text: bind part, then an echo and a line per port; with hosts it reads back as forwarders to ClusterIP, or the cluster DNS name if that is empty or None |
| ProxyPod.BuildIngressProxyPorts | internal/controller/ingress_proxy_controller.go:351-361 | ingress container ports are the Service ports, in order |
| ProxyPod.BuildProxyPod | internal/controller/egress_proxy_controller.go:148-231 | the pod put together from the loops is the one the protocol creates |
| ProxyPod.PodIdentity | internal/controller/egress_proxy_controller.go:158-175 | labels, annotations and owner of the built pod, for both controllers |
| ProxyPod.PodContainers | internal/controller/egress_proxy_controller.go:176-228 | its two containers, with images from the environment or the defaults, variables, mounts, and the volumes mounted |
| ProxyPod.EgressPodForwards | internal/controller/egress_proxy_controller.go:196-202 | its proxy forwards, port by port, to the annotated DNS target, or the IP target without one, if that is a host |
| ProxyPod.IngressPodForwards | internal/controller/ingress_proxy_controller.go:189-201 | the ingress proxy forwards, port by port, from the annotated bind address to the cluster address or DNS name |
| ProxyPod.ProxyContainerServes | internal/controller/egress_proxy_controller.go:148-231 | the built pod as a whole: its proxy container declares exactly the ports its script listens on, and the script reads as those forwarders exactly if the addresses are hosts (or there is no port) |
| ProxyPod.ServedExactly | internal/controller/egress_proxy_controller.go:236-292 | the built pod of either controller serves every port it declares, under its own protocol and on a port of its own, exactly if all ports of the Service are TCP and no two lead to one listen port |
| ProxyScript.ReadScriptExact | internal/controller/egress_proxy_controller.go:246-269 | read as words of the shell and of socat: a text gives a forwarder list exactly if it is the script of that list and every target is a host name, an IPv4 address or a bracketed IPv6 address |
| ProxyScript.ReadIngressExact | internal/controller/ingress_proxy_controller.go:262-344 | the same for the ingress script, whose configured bind address must be a host as well |
| ProxyPod.EgressScriptMeaning | internal/controller/egress_proxy_controller.go:236-273 | the egress script reads as exactly one forwarder per Service port, if and only if the target is a host or there is no port |
| ProxyPod.EgressScriptInjective | internal/controller/egress_proxy_controller.go:236-273 | equal egress scripts mean equal targets and equal listen ports |
| ProxyPod.IngressScriptMeaning | internal/controller/ingress_proxy_controller.go:253-348 | the same for ingress, listen port equal to destination port, if and only if bind address and destination are hosts |
| ProxyPod.ThreeLoopsAgree | internal/controller/egress_proxy_controller.go:246-364 | container port i is listen port i always; endpoint port i is, for all i, exactly if every numeric target port is zero or the Service port |
| ProxyPod.ResolutionsOfNetclientEnv | internal/controller/egress_proxy_controller.go:500-558 | there is exactly one TOKEN entry, a reference resolving in the pod's namespace or the inline value |
| ProxyPod.TokenUnderChange | internal/controller/egress_proxy_controller.go:427-558 | if secrets change between the reads, TOKEN is the second own-namespace reading if it finds one, else the first full look-up |
| ProxyPod.SecretRead | internal/controller/egress_proxy_controller.go:469-490 | which secret and field are read: annotation before environment before default; and the operator namespace |
| ProxyPod.NetclientEnvIs | internal/controller/egress_proxy_controller.go:507-557 | the three variables of the netclient container and the secret a reference names |
| ProxyPod.TokenFromSecrets | internal/controller/egress_proxy_controller.go:427-558 | TOKEN in terms of what the secrets hold: the named field in the Service's namespace as last read, else as first read, else the operator's, else empty |
| ProxyPod.TokenUnderFailure | internal/controller/ingress_proxy_controller.go:411-540 | with stable secrets and failing reads, TOKEN is the intended one exactly if the reads that succeeded suffice |
| Recovery.EnvUnderFailure | internal/controller/egress_proxy_controller.go:427-558 | with stable secrets and failing reads, the environment is the one of successful reads exactly if the last read succeeded (own secret there) or the operator read did or yields nothing (not there) |
| Protocol.PodKeyInjective | internal/controller/egress_proxy_controller.go:112 | pod names of different Services and of the two controllers never coincide, for all strings |
| Protocol.PodNames | internal/controller/ingress_proxy_controller.go:104 | proxy pods are called after their Service and controller and live in its namespace |
| Protocol.CellStep | internal/controller/egress_proxy_controller.go:47-86 | any event changes the view, queue entry and progress of one controller-and-key only as the cell relation says |
| Protocol.CellProduct | internal/controller/ingress_proxy_controller.go:47-79 | runs of the cluster are runs of independent cells |
| Quiescence.CallKeepsFresh | internal/controller/egress_proxy_controller.go:66-76 | every call keeps "the snapshot is current or the key is queued again" |
| Quiescence.RunInvariants | internal/controller/egress_proxy_controller.go:47-86 | in all runs a missing pod that the controller believes in was evicted, and a pod nobody will clean was orphaned by a restart |
| Quiescence.PodPresence | internal/controller/egress_proxy_controller.go:110-144 | at any moment a proxy pod is there exactly if it was created and neither deleted nor evicted since |
| Quiescence.QuietPods | internal/controller/egress_proxy_controller.go:47-86 | a quiet key has its pod exactly if wanted, with the exact exceptions: evicted and not looked for since; Service gone before a restart and nothing since; and for a skipped Service exactly if one was created and not removed |
| Quiescence.QuietServices | internal/controller/ingress_proxy_controller.go:47-79 | the quiescence invariant in terms of annotations, for both controllers, over all interleavings without restart or eviction |
| QuietEndpoints.EndpointsTrail | internal/controller/egress_proxy_controller.go:311-416 | at every moment, whatever became of the Service: Endpoints nobody else edited since the last look are those of the look or, once its write took effect, what it called for, and before any look those of the start |
| QuietEndpoints.QuietEndpoints | internal/controller/egress_proxy_controller.go:311-390 | over all interleavings, a quiet egress key whose Service wants a proxy has looked at its pod on the current Service version, and unless somebody edited them since, its Endpoints are exactly what that look called for |
| QuietEndpoints.EndpointsDangleExactly | internal/controller/egress_proxy_controller.go:393-416 | a quiet egress key whose Service is gone or disabled has no pod (orphans of a restart excepted), and its Endpoints still name the pod exactly if they were ever made to and nobody edited them away since |
| QuietEndpoints.EndpointsRightExactly | internal/controller/egress_proxy_controller.go:327-390 | so they are right for the running pod exactly if that look saw it running under its present address, or they were right before |
| PodOrigin.IngressPodWasApproved | internal/controller/ingress_proxy_controller.go:60-76 | an ingress pod exists only if a reconcile read ingress on and egress off, and no completed clean-up came after |
| PodOrigin.PodFromOneVersion | internal/controller/egress_proxy_controller.go:66-184 | every proxy pod in every reachable state is built from one past Service version that called for it and from three secret reads made after it in the order of the code |
| PodOrigin.PodHasOneToken | internal/controller/egress_proxy_controller.go:507-557 | every reachable proxy pod has exactly one TOKEN variable |
| PodOrigin.PodFrozen | internal/controller/egress_proxy_controller.go:295-299 | a pod's specification never changes while it exists |
| Drain.AdvanceDescends | internal/controller/egress_proxy_controller.go:47-86 | each step lowers the number of steps left, also when a refused write queues the key again |
| Drain.SettleReachesGoal | internal/controller/egress_proxy_controller.go:47-144 | from any position, with any outdated knowledge, the calls of a reconcile and of the one queued behind it reach exactly the call-free reference result |
| Drain.ReconcileReachesTarget | internal/controller/ingress_proxy_controller.go:47-136 | one undisturbed reconcile leaves what the reference says and nothing queued |
| Drain.SecondReconcileIsIdle | internal/controller/egress_proxy_controller.go:47-86 | a second reconcile changes nothing |
| Convergence.DrainConfluence | internal/controller/egress_proxy_controller.go:47-86 | all complete orders of the pending work of both controllers reach the same cluster, from any state |
| Recovery.CallKeepsGoal | internal/controller/egress_proxy_controller.go:47-144 | for every position of a reconcile, current or outdated, and every outcome of its next call: the end result is the one without the failure exactly if an explicit condition on position, Service, secrets, pod and Endpoints holds |
| Recovery.FailuresLeaveNoTrace | internal/controller/egress_proxy_controller.go:47-144 | from any reachable state, any number of failures that meet that condition leave after the retries exactly the cluster a failure-free run leaves |
| Recovery.FailureLeavesTraceExactly | internal/controller/egress_proxy_controller.go:47-144 | one call ending in any way, amid such work, leaves the failure-free cluster if and only if it meets the condition |
| Recovery.RetriesLeaveNoTrace | internal/controller/egress_proxy_controller.go:47-144 | with no reconcile in progress on an outdated snapshot, that is every failure of a Service, pod or Endpoints call, and every failed secret read the look-up can do without |
| Recovery.StaleSnapshotMatters | internal/controller/egress_proxy_controller.go:120-143 | in the reachable state where a Service is edited between a reconcile reading it and looking for the pod, a failed look and a successful one end in different pods |
| Recovery.StaleSnapshotExample | internal/controller/egress_proxy_controller.go:120-143 | a concrete run in which they do |
| Recovery.LostSecretReadIsFrozen | internal/controller/egress_proxy_controller.go:455-464 | a lost read of the operator secret yields a pod with an empty token that later reconciles keep |
| Convergence.DrainTerminates | internal/controller/egress_proxy_controller.go:419-423 | at most thirty steps per pending key are ever taken, in any order |
| Convergence.DrainExists | internal/controller/egress_proxy_controller.go:419-423 | pending work can always be finished |
| Convergence.Converges | internal/controller/egress_proxy_controller.go:46-86 | after any run, once edits and failures stop, every way of finishing the work leaves each proxy pod exactly if the Service enables it and either gives what it needs or had the pod made before |
| Convergence.CanConverge | internal/controller/egress_proxy_controller.go:46-86 | and there is a way of finishing |
| Limits.BothProxiesExactly | internal/controller/ingress_proxy_controller.go:66-70 | "never both at once" is false: after a write of the Service both pods stand exactly if its annotations enable both, the ingress pod stood before, and a target is given or the egress pod stood before |
| Limits.BothProxiesStay | internal/controller/ingress_proxy_controller.go:66-70 | it happens whenever ingress and then egress beside it is switched on, in every order of the work |
| Limits.EditReachesOnlyEndpoints | internal/controller/egress_proxy_controller.go:294-390 | after an edit the Endpoints carry the new ports while the running pod stays the old one |
| Limits.EndpointsAfterWrite | internal/controller/egress_proxy_controller.go:311-390 | what a write of the Service does to its Endpoints, in every order of the work: exactly for a running pod and an enabled Service with a target they name it with the Service's ports, else they are as before |
| Traffic.EditHarmlessExactly | internal/controller/egress_proxy_controller.go:120-128 | for both controllers, the pod that stands after an edit is the one the new version wants exactly if token environment, Service identity, declared ports and, given ports, the address forwarded to are the same (for ingress also bind address and DNS name) |
| Traffic.SameScriptSameTarget | internal/controller/egress_proxy_controller.go:236-273 | over the same ports equal egress scripts have equal targets, whatever characters these hold |
| Traffic.SameIngressScript | internal/controller/ingress_proxy_controller.go:253-348 | over the same ports ingress scripts are equal exactly if bind address and destination are |
| Traffic.TrafficArrivesExactly | internal/controller/egress_proxy_controller.go:236-390 | over all runs, for a quiet key whose last look saw the pod running: Endpoints nobody edited name the pod's address and ports its script listens on exactly if the address is the one seen and each Service port is a listen port of the version the pod was built from |
| Traffic.HarmfulEdit | internal/controller/egress_proxy_controller.go:236-390 | a concrete run in which an edited port leaves Endpoints that name a port nothing listens on |
| Limits.DisablingLeavesEndpoints | internal/controller/egress_proxy_controller.go:393-416 | switching egress off removes the pod and leaves the Endpoints as they were, in every order of the work |
| Limits.RestartOrphans | internal/controller/egress_proxy_controller.go:53-56 | a restart right after a Service deletion leaves its pod with nothing queued, and nothing the controllers do removes it |
| Limits.PodChangesUnnoticed | internal/controller/egress_proxy_controller.go:419-423 | with nothing queued, an evicted pod is not replaced and a pod that starts or moves is not followed, whatever the controllers do: only Services are watched |
| Limits.FirstEndpointsNeverCome | internal/controller/egress_proxy_controller.go:311-330 | a first egress pod that starts after the work is done leaves its Service without Endpoints |
| ClusterState.Cluster.DeletePod | internal/controller/egress_proxy_controller.go:409-411 | deletion, also when it fails after taking effect, is the protocol step; deleting an absent pod is an error |
| ClusterState.Cluster.CreatePod | internal/controller/egress_proxy_controller.go:139-141 | creation is the protocol step; an existing pod is never overwritten |
| ClusterState.Cluster.CreateEndpoints | internal/controller/egress_proxy_controller.go:366-380 | creation of the Endpoints is the protocol step |
| ClusterState.Cluster.UpdateEndpoints | internal/controller/egress_proxy_controller.go:383-389 | the update is the protocol step; it is refused unless the object is the one read, and changes the version only if it changes something |
| ClusterState.Cluster.CleanupProxyPod | internal/controller/egress_proxy_controller.go:393-416 | the clean-up code, under interference and failures, makes exactly protocol steps and returns as they say |
| ClusterState.Cluster.GetNetclientToken | internal/controller/egress_proxy_controller.go:427-465 | the first look-up, own namespace then operator's, as protocol steps carrying the token found |
| ClusterState.Cluster.BuildNetclientEnvVars | internal/controller/egress_proxy_controller.go:500-558 | the second look-up as a protocol step carrying the environment built |
| ClusterState.Cluster.EnsureProxyPod | internal/controller/egress_proxy_controller.go:110-144 | get, look up, build, create as protocol steps; both controllers share this shape |
| ClusterState.Cluster.UpdateServiceEndpoints | internal/controller/egress_proxy_controller.go:311-330 | Endpoints are only touched for a pod seen running |
| ClusterState.Cluster.WriteEndpoints | internal/controller/egress_proxy_controller.go:332-390 | create or optimistic update of the Endpoints as protocol steps |
| ClusterState.Cluster.ReconcileEgress | internal/controller/egress_proxy_controller.go:47-86 | the egress reconcile is a run of its protocol calls and others' events, returned exactly as the last call says |
| ClusterState.Cluster.ReconcileIngress | internal/controller/ingress_proxy_controller.go:47-79 | the same for ingress |
| ClusterState.Cluster.Take | internal/controller/egress_proxy_controller.go:419-423 | a worker takes a queued key that nobody works on; only the next nine turns matter |
| ClusterState.Cluster.Work | internal/controller/ingress_proxy_controller.go:403-407 | dequeue, reconcile, report: at most nine calls, and the cluster stays on a logged run made of them and of what others do in the turns taken |
| Alone.SoloTurn | internal/controller/egress_proxy_controller.go:47-144 | a turn nobody disturbs returns nil at the reference result and leaves every other key's cell as it was |
| Alone.ReconcileAlone | internal/controller/egress_proxy_controller.go:47-144 | the imperative reconcile, left alone for nine turns, returns nil, reaches the reference result and touches nothing else |
| Injection.InjectionConservative | internal/webhook/mutating_webhook.go:345-483 | containers and volumes stay as prefixes, the rest is unchanged, each mount of the new container names a volume of the result |
| Injection.InjectedIs | internal/webhook/mutating_webhook.go:392-483 | the injected template: one container behind the others, the two volumes behind the others unless there, the first a claim exactly if one is given |
| Injection.SidecarIs | internal/webhook/mutating_webhook.go:287-345 | image, variables and mounts of the added container; server and network only if configured |
| Injection.InjectionKeepsNamesDistinct | internal/webhook/mutating_webhook.go:271-279 | names stay distinct; across init containers exactly if none is called netclient |
| Injection.FirstLabelledDecides | internal/webhook/mutating_webhook.go:64-252 | any sequence of admissions equals injection by its first labelled level alone |
| Injection.SidecarsOverAdmissions | internal/webhook/mutating_webhook.go:64-252 | at most one netclient container is added, exactly if some level is labelled and none was there |
| Injection.PvcPrecedence | internal/webhook/mutating_webhook.go:555-581 | general key before namespace key before environment on the merged annotations; a general key on the workload beats a namespace key on the template |
| Injection.ClaimStays | internal/webhook/mutating_webhook.go:486-552 | creations alone never change an existing claim |
| Injection.ClaimBalance | internal/webhook/mutating_webhook.go:486-552 | creations of a name exceed its deletions by at most one |
| Webhook.HasNetclientSidecar | internal/webhook/mutating_webhook.go:271-279 | finds a container called netclient exactly if there is one |
| Webhook.MergeMaps | internal/webhook/mutating_webhook.go:664-700 | merging is right-biased map override in every iteration order |
| Webhook.NetclientSidecarWebhook.EnsurePVCExists | internal/webhook/mutating_webhook.go:486-552 | success exactly if there is a client, the look-up goes well, and it sees the claim or the creation goes well with the name still free; what a creation leaves; existing claims stay unless others change them in the turns of this call |
| Webhook.NetclientSidecarWebhook.AddNetclientVolumes | internal/webhook/mutating_webhook.go:407-483 | the volumes are added once each; the configured claim is used exactly if it could be ensured or there is no client, else an empty directory |
| Webhook.NetclientSidecarWebhook.GetToken | internal/webhook/mutating_webhook.go:304-309 | the token is the labelled secret's exactly if there is a client, its read succeeds and the field is there, else the environment's |
| Webhook.NetclientSidecarWebhook.TokenForIs | internal/webhook/mutating_webhook.go:584-662 | which secret, field and namespace: labels before environment before default, the pod's namespace by default |
| Webhook.NetclientSidecarWebhook.AddNetclientSidecar | internal/webhook/mutating_webhook.go:287-404 | the in-place rewrite is the injection function with a claim that exists |
| Webhook.NetclientSidecarWebhook.Handle | internal/webhook/mutating_webhook.go:38-252 | a patch exactly for a decodable object of the six kinds, labelled at either level, without the container; it changes only the pod specification, to the injected one with token and claim from the template's labels and annotations before the workload's; the claim exactly if it could be ensured; existing claims stay unless others change them |
| UserMap.LastWriteWins | internal/proxy/proxy.go:76-101 | over any sequence of critical sections each address holds the last value set and not removed since |
| UserMap.UserIPMap.HoldsLastWrite | internal/proxy/proxy.go:76-101 | and so does the map of the class at every moment, its log being what its methods did |
| UserMap.LookupsAreWhole | internal/proxy/proxy.go:86-94 | at every instant of a synchronisation an address has its old entry whole until its own write and its new entry whole from then on |
| UserMap.OrderDoesNotMatter | internal/proxy/proxy.go:285-290 | in every iteration order the end is the old map overridden by the response |
| UserMap.LastResponseWins | internal/proxy/proxy.go:264-293 | after any rounds an address holds what the last response naming it said |
| UserMap.UnmentionedStays | internal/proxy/proxy.go:264-293 | failed fetches and responses that omit an address keep its entry |
| UserMap.UserIPMap.SetUserMapping | internal/proxy/proxy.go:76-83 | one entry is replaced |
| UserMap.UserIPMap.GetUserMapping | internal/proxy/proxy.go:86-94 | user, groups and presence of one entry |
| UserMap.UserIPMap.RemoveUserMapping | internal/proxy/proxy.go:97-101 | one entry is removed |
| UserMap.UserIPMap.GetAllMappings | internal/proxy/proxy.go:104-113 | the copy loop returns the whole map |
| UserMap.UserIPMap.WriteResponse | internal/proxy/proxy.go:285-290 | one critical section for each entry of the response, each once, ending in the old map overridden by it |
| UserMap.UserIPMap.Synchronise | internal/proxy/proxy.go:296-324 | the periodic loop folds the successful responses into the map |
| UserMap.GetProxyConfig | internal/proxy/proxy.go:327-367 | only "noauth", letter by letter in either case, disables impersonation; the default identity exists in auth mode alone |
| UserMap.SetIdentityHeaders | internal/proxy/proxy.go:640-676 | user and groups come from one entry, each header is written only if not empty, the two origin headers always, no other |
| UserMap.SameIdentityHeaders | internal/proxy/proxy.go:664-672 | an identity lacking user or groups leaves the header a request came with: two requests leave alike exactly if the identity has both or they came alike in what it lacks |
| UserMap.GroupHeaderParses | internal/proxy/proxy.go:670-672 | the group header parses to the groups exactly if their names are proper and not the single empty one |
| Groups.TrimInPlace | internal/proxy/proxy.go:357-359 | the list is trimmed in place, name by name |
| Groups.ReadGroups | internal/proxy/proxy.go:353-363 | each piece between commas freed of outer white space and of nothing else, or the two default groups for the empty string |
| Groups.SplitJoin | internal/proxy/proxy.go:671 | splitting undoes joining of comma-free names |
| Groups.JoinSplit | internal/proxy/proxy.go:355 | joining undoes splitting |
| Groups.TrimWorks | internal/proxy/proxy.go:358 | the trimmed text is the one text without outer white space that is left when only white space is cut off the ends; texts already trimmed stay |
| Groups.SpaceExactly | internal/proxy/proxy.go:358 | what counts as white space, character by character |
| Groups.HeaderRoundTrip | internal/proxy/proxy.go:670-672 | a joined list parses back exactly if its names are proper and it is not the single empty name |
| Groups.GroupsRoundTrip | internal/proxy/proxy.go:352-363 | parse, join, parse is stable exactly unless the string is one blank name |
| Backoff.FindAddress | internal/proxy/proxy.go:800-828 | finds a usable IPv4 address on the named interface exactly if there is one |
| Backoff.WrapsTo64 | internal/proxy/proxy.go:833 | delays are multiplied in 64 bits: exact if they fit, else the residue |
| Backoff.WaitForInterface | internal/proxy/proxy.go:774-845 | empty exactly if no attempt saw a usable address, with the time slept |
| Backoff.SleepBound | internal/proxy/proxy.go:831-840 | without overflow the sleep is at most the capped sum, and equal to it exactly if no listing failed |
| Backoff.ClosedForm | internal/proxy/proxy.go:833-836 | the capped sum is the triangular closed form with q the quotient of cap and base |
| Backoff.WaitIsBounded | internal/proxy/proxy.go:774-845 | the closed form bounds every wait |

## Left out

- Informer cache staleness, graceful termination, leader election and owner-reference garbage collection: assumed away as listed above.
- UIDs of created pods, which the API server assigns: the Endpoints target carries the pod key only.
- BuildProxyPod: resource quantities, probes and security contexts are constants, omitted or folded into one opaque field.
- EgressScriptMeaning: a target is a host by the characters and brackets it consists of; whether the name resolves is not modelled.
- The shell text of the automatic bind prelude: an opaque constant of which only the leading comment sign is used.
- Unicode, JSON and HTTP: texts are sequences of characters, requests arrive decoded, a failed decoding is a case of its own.
- `updateProxyPod` in both controllers and `checkNetclientContainer`: unreachable.
- Bearer-token handling, the abort paths of the middleware, routing, TLS, CORS and the pro-status check of the proxy: finite branch tables and library plumbing.
- `NetmakerOpsReconciler` and the `api/v1` types: scaffolding and generated code.
- Header canonicalisation: header names are compared as written.
- QuietEndpoints: says nothing about Endpoints that somebody else edited after the last look; the controllers do not watch Endpoints.
- EditHarmlessExactly: for ingress, cluster addresses and the names of Services and namespaces are taken to hold no line break, as the API server ensures; bind addresses and egress targets, being annotations, may hold anything.
- Backoff.SleepBound: nothing is said about waits whose delay overflows 64 bits; there the sleep may be skipped.

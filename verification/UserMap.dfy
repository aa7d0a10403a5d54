/** The map from peer addresses to users: a mutex-guarded table written entry by entry by the periodic
    synchronisation, while requests look addresses up. */
module UserMap {
  import opened Kube
  import opened Groups

  datatype UserMapping = UserMapping(user: string, groups: seq<string>)

  type Mappings = map<string, UserMapping>

  datatype MapEvent = SetEntry(ip: string, mapping: UserMapping) | RemoveEntry(ip: string)

  function MapStep(m: Mappings, e: MapEvent): Mappings {
    match e
    case SetEntry(ip, x) => m[ip := x]
    case RemoveEntry(ip) => m - {ip}
  }

  function MapAfter(m: Mappings, es: seq<MapEvent>): Mappings {
    if es == [] then m else MapStep(MapAfter(m, es[..|es| - 1]), es[|es| - 1])
  }

  /** Over any run of critical sections, each address holds the value last set for it and not removed
      since; untouched addresses hold what they held. */
  lemma {:induction false} LastWriteWins(m: Mappings, es: seq<MapEvent>, ip: string, i: nat)
    requires i < |es| && es[i].ip == ip && forall j | i < j < |es| :: es[j].ip != ip
    ensures Lookup(MapAfter(m, es), ip) == if es[i].SetEntry? then Some(es[i].mapping) else None
  {
    if i < |es| - 1 {
      LastWriteWins(m, es[..|es| - 1], ip, i);
    }
  }

  lemma {:induction false} UntouchedStays(m: Mappings, es: seq<MapEvent>, ip: string)
    requires forall j | 0 <= j < |es| :: es[j].ip != ip
    ensures Lookup(MapAfter(m, es), ip) == Lookup(m, ip)
  {
    if es != [] {
      UntouchedStays(m, es[..|es| - 1], ip);
    }
  }

  /** The events are one write of each entry of the response, in some order. */
  predicate SetsEachOnce(es: seq<MapEvent>, response: Mappings) {
    && (forall e | e in es :: e.SetEntry? && e.ip in response && e.mapping == response[e.ip])
    && (forall i, j | 0 <= i < j < |es| :: es[i].ip != es[j].ip)
    && (forall ip | ip in response :: SetEntry(ip, response[ip]) in es)
  }

  lemma SetsOnce(es: seq<MapEvent>, response: Mappings, ip: string) returns (i: nat)
    requires SetsEachOnce(es, response) && ip in response
    ensures i < |es| && es[i] == SetEntry(ip, response[ip]) && forall j | 0 <= j < |es| && j != i :: es[j].ip != ip
  {
    i :| 0 <= i < |es| && es[i] == SetEntry(ip, response[ip]);
  }

  /** A synchronisation as readers see it: at every instant, each address has its old entry whole until
      its own write is done, and its new entry whole from then on. */
  lemma LookupsAreWhole(m: Mappings, es: seq<MapEvent>, response: Mappings, n: nat, ip: string)
    requires SetsEachOnce(es, response) && n <= |es|
    ensures Lookup(MapAfter(m, es[..n]), ip)
         == if exists i | 0 <= i < n :: es[i].ip == ip then Lookup(response, ip) else Lookup(m, ip)
  {
    if i :| 0 <= i < n && es[i].ip == ip {
      assert es[i] in es;
      LastWriteWins(m, es[..n], ip, i);
    } else {
      UntouchedStays(m, es[..n], ip);
    }
  }

  /** In whatever order the entries are written, the end is the old map overridden by the response. */
  lemma OrderDoesNotMatter(m: Mappings, es: seq<MapEvent>, response: Mappings)
    requires SetsEachOnce(es, response)
    ensures MapAfter(m, es) == m + response
  {
    assert es[..|es|] == es;
    assert forall i | 0 <= i < |es| :: es[i] in es;
    forall ip: string ensures Lookup(MapAfter(m, es), ip) == Lookup(m + response, ip) {
      LookupsAreWhole(m, es, response, |es|, ip);
      if ip in response {
        var i := SetsOnce(es, response, ip);
      }
    }
    SameEntries(MapAfter(m, es), m + response);
  }

  lemma SameEntries(m: Mappings, n: Mappings)
    requires forall ip :: Lookup(m, ip) == Lookup(n, ip)
    ensures m == n
  {
    forall ip ensures ip in m <==> ip in n && (ip in m ==> m[ip] == n[ip]) {
      assert Lookup(m, ip) == Lookup(n, ip);
    }
  }

  lemma {:induction false} MapConcat(m: Mappings, es: seq<MapEvent>, es': seq<MapEvent>)
    ensures MapAfter(m, es + es') == MapAfter(MapAfter(m, es), es')
  {
    if es' == [] {
      assert es + es' == es;
    } else {
      assert (es + es')[..|es + es'| - 1] == es + es'[..|es'| - 1];
      MapConcat(m, es, es'[..|es'| - 1]);
    }
  }

  /** One attempt to fetch the mappings. */
  datatype Fetch = FetchFailed | Response(mappings: Mappings)

  function AfterFetches(m: Mappings, fs: seq<Fetch>): Mappings {
    if fs == [] then m
    else
      var before := AfterFetches(m, fs[..|fs| - 1]);
      match fs[|fs| - 1]
      case FetchFailed => before
      case Response(r) => before + r
  }

  predicate Mentions(f: Fetch, ip: string) {
    f.Response? && ip in f.mappings
  }

  /** After any number of rounds, each address holds what the last successful response that mentioned it
      said; failed rounds change nothing. */
  lemma {:induction false} LastResponseWins(m: Mappings, fs: seq<Fetch>, ip: string, i: nat)
    requires i < |fs| && Mentions(fs[i], ip) && forall j | i < j < |fs| :: !Mentions(fs[j], ip)
    ensures Lookup(AfterFetches(m, fs), ip) == Some(fs[i].mappings[ip])
  {
    if i < |fs| - 1 {
      LastResponseWins(m, fs[..|fs| - 1], ip, i);
      assert !Mentions(fs[|fs| - 1], ip);
    }
  }

  /** An address that no response mentions keeps the entry it had; nothing is ever dropped. */
  lemma {:induction false} UnmentionedStays(m: Mappings, fs: seq<Fetch>, ip: string)
    requires forall i | 0 <= i < |fs| :: !Mentions(fs[i], ip)
    ensures Lookup(AfterFetches(m, fs), ip) == Lookup(m, ip)
  {
    if fs != [] {
      UnmentionedStays(m, fs[..|fs| - 1], ip);
      assert !Mentions(fs[|fs| - 1], ip);
    }
  }

  class UserIPMap {
    var mappings: Mappings
    ghost const init: Mappings
    ghost var log: seq<MapEvent>  // the critical sections that wrote, in order

    constructor ()
      ensures Valid() && mappings == map[] && log == []
    {
      mappings, init, log := map[], map[], [];
    }

    ghost predicate Valid()
      reads this
    {
      mappings == MapAfter(init, log)
    }

    /** Every address holds the value last set for it, unless it was removed since. */
    lemma HoldsLastWrite(ip: string, i: nat)
      requires Valid() && i < |log| && log[i].ip == ip && forall j | i < j < |log| :: log[j].ip != ip
      ensures Lookup(mappings, ip) == if log[i].SetEntry? then Some(log[i].mapping) else None
    {
      LastWriteWins(init, log, ip, i);
    }

    method SetUserMapping(ip: string, user: string, groups: seq<string>)
      requires Valid()
      modifies this
      ensures Valid() && mappings == old(mappings)[ip := UserMapping(user, groups)]
      ensures log == old(log) + [SetEntry(ip, UserMapping(user, groups))]
    {
      MapConcat(init, log, [SetEntry(ip, UserMapping(user, groups))]);
      mappings := mappings[ip := UserMapping(user, groups)];
      log := log + [SetEntry(ip, UserMapping(user, groups))];
    }

    method GetUserMapping(ip: string) returns (user: string, groups: seq<string>, found: bool)
      ensures found <==> ip in mappings
      ensures if found then mappings[ip] == UserMapping(user, groups) else user == "" && groups == []
    {
      if ip !in mappings {
        return "", [], false;
      }
      return mappings[ip].user, mappings[ip].groups, true;
    }

    method RemoveUserMapping(ip: string)
      requires Valid()
      modifies this
      ensures Valid() && mappings == old(mappings) - {ip}
      ensures log == old(log) + [RemoveEntry(ip)]
    {
      MapConcat(init, log, [RemoveEntry(ip)]);
      mappings := mappings - {ip};
      log := log + [RemoveEntry(ip)];
    }

    /** A copy made entry by entry, in any order. */
    method GetAllMappings() returns (result: Mappings)
      ensures result == mappings
    {
      result := map[];
      var todo := mappings.Keys;
      while todo != {}
        invariant todo <= mappings.Keys && result == mappings - todo
      {
        var ip :| ip in todo;
        result := result[ip := mappings[ip]];
        todo := todo - {ip};
      }
    }

    /** Writes a response into the map, one critical section for each entry, in whatever order the
        iteration yields; in the end the map is the old one overridden by the response. */
    method WriteResponse(response: Mappings)
      requires Valid()
      modifies this
      ensures Valid() && mappings == old(mappings) + response
      ensures old(log) <= log && SetsEachOnce(log[|old(log)|..], response)
    {
      ghost var before, written := mappings, [];
      var todo := response.Keys;
      while todo != {}
        invariant todo <= response.Keys && Valid() && log == old(log) + written
        invariant SetsEachOnce(written, response - todo)
      {
        var ip :| ip in todo;
        SetUserMapping(ip, response[ip].user, response[ip].groups);
        WrittenNext(written, response, todo, ip);
        todo := todo - {ip};
        written := written + [SetEntry(ip, response[ip])];
      }
      assert response - todo == response && log[|old(log)|..] == written;
      MapConcat(init, old(log), written);
      OrderDoesNotMatter(before, written, response);
    }

    lemma WrittenNext(es: seq<MapEvent>, response: Mappings, todo: set<string>, ip: string)
      requires ip in response && ip in todo && SetsEachOnce(es, response - todo)
      ensures SetsEachOnce(es + [SetEntry(ip, response[ip])], response - (todo - {ip}))
    {
      var next, left := es + [SetEntry(ip, response[ip])], response - todo;
      assert forall i | 0 <= i < |es| :: es[i] in es;
      forall k | k in response - (todo - {ip}) ensures SetEntry(k, response[k]) in next {
        if k == ip {
          assert next[|es|] == SetEntry(ip, response[ip]);
        } else {
          assert k in left && left[k] == response[k] && SetEntry(k, left[k]) in es;
        }
      }
    }

    /** The synchronisation: a first fetch, then one for each tick until it is stopped. Without a server
        or token nothing is fetched. */
    method Synchronise(server: string, token: string, fetches: seq<Fetch>)
      requires Valid()
      modifies this
      ensures Valid() && mappings == AfterFetches(old(mappings), if server == "" || token == "" then [] else fetches)
    {
      if server == "" || token == "" {
        return;
      }
      for i := 0 to |fetches|
        invariant Valid() && mappings == AfterFetches(old(mappings), fetches[..i])
      {
        assert fetches[..i + 1][..i] == fetches[..i];
        match fetches[i]
        case FetchFailed =>
        case Response(r) => WriteResponse(r);
      }
      assert fetches[..|fetches|] == fetches;
    }
  }

  // ---------- Impersonation ----------

  datatype ProxyMode = AuthMode | NoAuthMode

  datatype ProxyConfig = ProxyConfig(mode: ProxyMode, default: UserMapping)

  function ToLower(s: string): string {
    seq(|s|, i requires 0 <= i < |s| => if 'A' <= s[i] <= 'Z' then (s[i] as int + 32) as char else s[i])
  }

  /** The mode word in any mixture of cases, letter by letter. */
  lemma NoAuthInAnyCase(s: string)
    ensures ToLower(s) == "noauth"
       <==> |s| == 6 && s[0] in "nN" && s[1] in "oO" && s[2] in "aA" && s[3] in "uU" && s[4] in "tT" && s[5] in "hH"
  {
    var l := ToLower(s);
    if |s| == 6 {
      assert l == [l[0], l[1], l[2], l[3], l[4], l[5]];
    }
  }

  /** Only the word "noauth", in any case, switches impersonation off; the default identity is configured
      for auth mode alone. */
  method GetProxyConfig(env: map<string, string>) returns (c: ProxyConfig)
    ensures
      var s := ValueOf(env, "PROXY_MODE");
      c.mode == NoAuthMode
      <==> |s| == 6 && s[0] in "nN" && s[1] in "oO" && s[2] in "aA" && s[3] in "uU" && s[4] in "tT" && s[5] in "hH"
    ensures c.default == if c.mode == NoAuthMode then UserMapping("", [])
                         else UserMapping(FirstNonEmpty([ValueOf(env, "PROXY_IMPERSONATE_USER"), "wireguard-peer"]),
                                          ParseGroups(ValueOf(env, "PROXY_IMPERSONATE_GROUPS")))
  {
    NoAuthInAnyCase(ValueOf(env, "PROXY_MODE"));
    FirstOfTwo(ValueOf(env, "PROXY_IMPERSONATE_USER"), "wireguard-peer");
    var mode := AuthMode;
    if ToLower(ValueOf(env, "PROXY_MODE")) == "noauth" {
      mode := NoAuthMode;
    }
    var user, groups := "", [];
    if mode == AuthMode {
      user := ValueOf(env, "PROXY_IMPERSONATE_USER");
      if user == "" {
        user := "wireguard-peer";
      }
      groups := ReadGroups(ValueOf(env, "PROXY_IMPERSONATE_GROUPS"));
    }
    c := ProxyConfig(mode, UserMapping(user, groups));
  }

  class Request {
    var headers: map<string, string>

    constructor (headers: map<string, string>)
      ensures this.headers == headers
    {
      this.headers := headers;
    }
  }


  /** User and groups are those of one identity, each written only if it is not empty; the address the
      request came from and the group of all peers are always written; nothing else is. */
  ghost predicate Impersonates(before: map<string, string>, after: map<string, string>, ip: string, id: UserMapping) {
    && Lookup(after, "Impersonate-User") == (if id.user != "" then Some(id.user) else Lookup(before, "Impersonate-User"))
    && Lookup(after, "Impersonate-Group") == (if id.groups != [] then Some(Join(id.groups)) else Lookup(before, "Impersonate-Group"))
    && Lookup(after, "Impersonate-Extra-Original-User") == Some(ip)
    && Lookup(after, "Impersonate-Extra-Original-Group") == Some("wireguard-peers")
    && forall h: string :: Lookup(after, h) == Lookup(before, h)
         || h in ["Impersonate-User", "Impersonate-Group", "Impersonate-Extra-Original-User", "Impersonate-Extra-Original-Group"]
  }

  /** Parsed like the configured list, the group header gives the groups of the identity exactly if their
      names are proper and not the single empty one. */
  lemma GroupHeaderParses(before: map<string, string>, after: map<string, string>, ip: string, id: UserMapping)
    requires Impersonates(before, after, ip, id) && id.groups != []
    ensures ParseGroups(ValueOf(after, "Impersonate-Group")) == id.groups <==> Proper(id.groups) && id.groups != [""]
  {
    HeaderRoundTrip(id.groups);
  }

  /** An identity without a user or without groups leaves the header that the request came with. Two
      requests are given the same user and groups exactly if the identity has both, or they came with the
      same headers for what it lacks. */
  lemma SameIdentityHeaders(before: map<string, string>, after: map<string, string>, ip: string,
                            before': map<string, string>, after': map<string, string>, ip': string, id: UserMapping)
    requires Impersonates(before, after, ip, id) && Impersonates(before', after', ip', id)
    ensures Lookup(after, "Impersonate-User") == Lookup(after', "Impersonate-User")
            && Lookup(after, "Impersonate-Group") == Lookup(after', "Impersonate-Group")
       <==> && (id.user != "" || Lookup(before, "Impersonate-User") == Lookup(before', "Impersonate-User"))
            && (id.groups != [] || Lookup(before, "Impersonate-Group") == Lookup(before', "Impersonate-Group"))
  {
  }

  /** The identity headers of a request in auth mode: those of its mapping if it has one, and of the
      configured identity otherwise. */
  method SetIdentityHeaders(users: UserIPMap, ip: string, default: UserMapping, req: Request)
    modifies req
    ensures Impersonates(old(req.headers), req.headers, ip, if ip in users.mappings then users.mappings[ip] else default)
  {
    var user, groups := default.user, default.groups;
    var mappedUser, mappedGroups, found := users.GetUserMapping(ip);
    if found {
      user, groups := mappedUser, mappedGroups;
    }
    if user != "" {
      req.headers := req.headers["Impersonate-User" := user];
    }
    if |groups| > 0 {
      req.headers := req.headers["Impersonate-Group" := Join(groups)];
    }
    req.headers := req.headers["Impersonate-Extra-Original-User" := ip];
    req.headers := req.headers["Impersonate-Extra-Original-Group" := "wireguard-peers"];
  }
}

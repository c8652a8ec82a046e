/**
 * Server discovery in the MCP tool process: the default host and port of
 * the relay server, the candidate hosts and ports, the host-by-port scan
 * for the relay's identity endpoint, and `withServerConnection`, which runs
 * one tool request against the discovered server with at most one
 * rediscovery and one retry.
 *
 * Environment variables and the `.port` file are inputs; each probe of
 * `http://host:port/.identity` is an oracle answering for a host and port;
 * a tool request is an oracle answering for the attempt number and the host
 * and port current when it runs.
 */
module Discovery {
  import opened Wrappers
  import Text

  /** What the MCP process reads from outside: `BROWSER_TOOLS_HOST`,
      `BROWSER_TOOLS_PORT` (None when unset) and the contents of the
      `.port` file (None when it is missing or cannot be read). */
  datatype Environment = Environment(hostVar: Option<string>, portVar: Option<string>, portFile: Option<string>)

  const DEFAULT_HOST: string := "127.0.0.1"
  const DEFAULT_PORT: int := 3025
  const FALLBACK_FIRST: int := 3025
  const FALLBACK_LAST: int := 3035
  const SIGNATURE: string := "mcp-browser-connector-24x7"

  /** A decimal setting that `parseInt` reads as a positive integer. */
  predicate PositiveSetting(s: Option<string>) {
    s.Some? && s.value != "" && var n := Text.ParseInt(s.value); n.Some? && n.value > 0
  }

  /** `getDefaultServerPort`: the environment variable, then the `.port`
      file, then 3025. Whatever the inputs, the port is positive and comes
      from one of the three. */
  function DefaultServerPort(env: Environment): (r: int)
    ensures r > 0
    ensures r == DEFAULT_PORT || Text.ParseInt(env.portVar.GetOr("")) == Some(r)
      || Text.ParseInt(Text.Trim(env.portFile.GetOr(""))) == Some(r)
  {
    if PositiveSetting(env.portVar) then Text.ParseInt(env.portVar.value).value
    else if env.portFile.Some? && PositiveSetting(Some(Text.Trim(env.portFile.value))) then
      Text.ParseInt(Text.Trim(env.portFile.value)).value
    else DEFAULT_PORT
  }

  /** A port written in the environment variable is the port used, whatever
      the `.port` file says; with the variable unset, a port written in the
      file is used. */
  lemma DefaultServerPortPriority(n: nat, hostVar: Option<string>, portFile: Option<string>)
    requires n > 0
    ensures DefaultServerPort(Environment(hostVar, Some(Text.NatToString(n)), portFile)) == n
    ensures DefaultServerPort(Environment(hostVar, None, Some(Text.NatToString(n)))) == n
  {
    var s := Text.NatToString(n);
    SettingOfNatToString(n);
    assert PositiveSetting(Some(s));
    assert !PositiveSetting(None);
    assert Text.Trim(s) == s;
  }

  lemma SettingOfNatToString(n: nat)
    ensures Text.ParseInt(Text.NatToString(n)) == Some(n)
    ensures Text.Trim(Text.NatToString(n)) == Text.NatToString(n)
  {
    Text.ParseIntOfNatToString(n);
    TrimOfNatToString(n);
  }

  lemma TrimOfNatToString(n: nat)
    ensures Text.Trim(Text.NatToString(n)) == Text.NatToString(n)
  {
    var s := Text.NatToString(n);
    assert Text.IsDigit(s[0]) && Text.IsDigit(s[|s| - 1]);
    Text.TrimUntouched(s);
  }

  /** `getDefaultServerHost`: the environment variable when set to a
      non-empty value, else 127.0.0.1. */
  function DefaultServerHost(env: Environment): (r: string)
    ensures r != ""
    ensures r == DEFAULT_HOST || Some(r) == env.hostVar
    ensures env.hostVar.Some? && env.hostVar.value != "" ==> r == env.hostVar.value
  {
    if env.hostVar.Some? && env.hostVar.value != "" then env.hostVar.value else DEFAULT_HOST
  }

  /** The hosts tried, in order; a repeated host is tried again. */
  function Hosts(env: Environment): (r: seq<string>)
    ensures |r| == 3 && r[0] == DefaultServerHost(env) && r[1] == DEFAULT_HOST && r[2] == "localhost"
  {
    [DefaultServerHost(env), DEFAULT_HOST, "localhost"]
  }

  /** The fallback ports `3025..hi` in ascending order, without `d`. */
  function FallbackPorts(d: int, hi: int): seq<int>
    decreases hi - FALLBACK_FIRST
  {
    if hi < FALLBACK_FIRST then []
    else FallbackPorts(d, hi - 1) + (if hi == d then [] else [hi])
  }

  /** The ports tried, in order: the default first, then the fallback range. */
  function PortCandidates(d: int): seq<int> {
    [d] + FallbackPorts(d, FALLBACK_LAST)
  }

  predicate Ascending(s: seq<int>) {
    forall i, j :: 0 <= i < j < |s| ==> s[i] < s[j]
  }

  lemma {:induction false} FallbackPortsSpec(d: int, hi: int)
    ensures forall p :: p in FallbackPorts(d, hi) <==> FALLBACK_FIRST <= p <= hi && p != d
    ensures Ascending(FallbackPorts(d, hi))
    ensures |FallbackPorts(d, hi)| ==
      if hi < FALLBACK_FIRST then 0
      else hi - FALLBACK_FIRST + 1 - (if FALLBACK_FIRST <= d <= hi then 1 else 0)
    decreases hi - FALLBACK_FIRST
  {
    if hi >= FALLBACK_FIRST {
      FallbackPortsSpec(d, hi - 1);
      var s := FallbackPorts(d, hi - 1);
      assert forall k :: 0 <= k < |s| ==> s[k] < hi by {
        forall k | 0 <= k < |s| ensures s[k] < hi {
          assert s[k] in s;
        }
      }
    }
  }

  /** The candidate ports start with the default, hold it and every port of
      3025..3035 exactly once and nothing else: 11 ports when the default is
      in that range, 12 otherwise. */
  lemma PortCandidatesSpec(d: int)
    ensures var r := PortCandidates(d);
      && r[0] == d
      && Text.NoDuplicates(r)
      && (forall p :: p in r <==> p == d || FALLBACK_FIRST <= p <= FALLBACK_LAST)
      && Ascending(r[1..])
      && |r| == if FALLBACK_FIRST <= d <= FALLBACK_LAST then 11 else 12
  {
    FallbackPortsSpec(d, FALLBACK_LAST);
    var r := PortCandidates(d);
    assert r[1..] == FallbackPorts(d, FALLBACK_LAST);
    forall i, j | 0 <= i < j < |r| ensures r[i] != r[j] {
      if i == 0 {
        assert r[j] in r[1..];
      } else {
        assert r[i] == r[1..][i - 1] && r[j] == r[1..][j - 1];
      }
    }
  }

  // ---------------------------------------------------------------- probes

  /** What a probe of `/.identity` gave: the fetch or the JSON body threw
      (refused, timed out, malformed), the response was not ok, or an
      identity with this signature (an absent or non-string signature is
      written ""). */
  datatype Answer = Threw | NotOk | Identity(signature: string)

  predicate Accepts(probe: (string, int) -> Answer, host: string, port: int) {
    probe(host, port) == Identity(SIGNATURE)
  }

  /** `(i, j)` is the first accepted pair of the host-outer, port-inner scan. */
  predicate FirstMatch(probe: (string, int) -> Answer, hosts: seq<string>, ports: seq<int>, i: nat, j: nat) {
    && i < |hosts| && j < |ports|
    && Accepts(probe, hosts[i], ports[j])
    && (forall i', j' :: 0 <= i' < i && 0 <= j' < |ports| ==> !Accepts(probe, hosts[i'], ports[j']))
    && (forall j' :: 0 <= j' < j ==> !Accepts(probe, hosts[i], ports[j']))
  }

  lemma FirstMatchUnique(probe: (string, int) -> Answer, hosts: seq<string>, ports: seq<int>, i: nat, j: nat, i': nat, j': nat)
    requires FirstMatch(probe, hosts, ports, i, j) && FirstMatch(probe, hosts, ports, i', j')
    ensures i == i' && j == j'
  {
  }

  /** The first port accepted on one host. */
  function SearchPorts(probe: (string, int) -> Answer, host: string, ports: seq<int>): (r: Option<nat>)
    ensures r.Some? ==> r.value < |ports| && Accepts(probe, host, ports[r.value])
    ensures r.Some? ==> forall j :: 0 <= j < r.value ==> !Accepts(probe, host, ports[j])
    ensures r.None? ==> forall j :: 0 <= j < |ports| ==> !Accepts(probe, host, ports[j])
    decreases |ports|
  {
    if ports == [] then None
    else
      var r := SearchPorts(probe, host, ports[..|ports| - 1]);
      if r.Some? then r
      else if Accepts(probe, host, ports[|ports| - 1]) then Some(|ports| - 1)
      else None
  }

  /** The first accepted host and port, scanning host by host. */
  function Search(probe: (string, int) -> Answer, hosts: seq<string>, ports: seq<int>): (r: Option<(nat, nat)>)
    ensures r.Some? ==> FirstMatch(probe, hosts, ports, r.value.0, r.value.1)
    ensures r.None? ==> forall i, j :: 0 <= i < |hosts| && 0 <= j < |ports| ==> !Accepts(probe, hosts[i], ports[j])
    decreases |hosts|
  {
    if hosts == [] then None
    else
      var init := hosts[..|hosts| - 1];
      var r := Search(probe, init, ports);
      if r.Some? then
        assert forall i :: 0 <= i < |init| ==> init[i] == hosts[i];
        r
      else
        match SearchPorts(probe, hosts[|hosts| - 1], ports)
        case Some(j) => Some((|hosts| - 1, j))
        case None => None
  }

  /** The relay's address as the MCP process records it. */
  datatype Adapter = Adapter(host: string, port: int, discovered: bool)

  const INITIAL: Adapter := Adapter(DEFAULT_HOST, DEFAULT_PORT, false)

  /** `discoverServer`: the address it records when it finds the relay;
      when it finds nothing, the recorded address stays as it was. */
  function Locate(env: Environment, probe: (string, int) -> Answer): (r: Option<Adapter>)
    ensures r.Some? ==> r.value.discovered
  {
    var hosts := Hosts(env);
    var ports := PortCandidates(DefaultServerPort(env));
    match Search(probe, hosts, ports)
    case Some((i, j)) => Some(Adapter(hosts[i], ports[j], true))
    case None => None
  }

  /** Discovery succeeds exactly when some candidate pair answers with the
      relay's signature, and then records the first such pair of the
      host-by-port scan. */
  lemma DiscoverSpec(env: Environment, probe: (string, int) -> Answer)
    ensures var hosts := Hosts(env);
      var ports := PortCandidates(DefaultServerPort(env));
      var r := Locate(env, probe);
      && (r.Some? <==> exists i: nat, j: nat :: FirstMatch(probe, hosts, ports, i, j))
      && (forall i: nat, j: nat :: FirstMatch(probe, hosts, ports, i, j) ==>
            r == Some(Adapter(hosts[i], ports[j], true)))
  {
    var hosts := Hosts(env);
    var ports := PortCandidates(DefaultServerPort(env));
    var r := Search(probe, hosts, ports);
    if r.Some? {
      assert FirstMatch(probe, hosts, ports, r.value.0, r.value.1);
      forall i: nat, j: nat | FirstMatch(probe, hosts, ports, i, j)
        ensures Locate(env, probe) == Some(Adapter(hosts[i], ports[j], true))
      {
        FirstMatchUnique(probe, hosts, ports, i, j, r.value.0, r.value.1);
      }
    } else {
      forall i: nat, j: nat ensures !FirstMatch(probe, hosts, ports, i, j) {
        if i < |hosts| && j < |ports| {
          assert !Accepts(probe, hosts[i], ports[j]);
        }
      }
    }
  }

  /** How many probes a discovery makes: up to and including the accepted
      one, or every host-port pair. */
  function ProbesUsed(probe: (string, int) -> Answer, hosts: seq<string>, ports: seq<int>): nat {
    match Search(probe, hosts, ports)
    case Some((i, j)) => i * |ports| + j + 1
    case None => |hosts| * |ports|
  }

  /** A scan makes at most one probe per host-port pair, and a scan that
      finds nothing makes exactly that many. */
  lemma ProbesBound(probe: (string, int) -> Answer, hosts: seq<string>, ports: seq<int>)
    ensures ProbesUsed(probe, hosts, ports) <= |hosts| * |ports|
    ensures Search(probe, hosts, ports).None? ==> ProbesUsed(probe, hosts, ports) == |hosts| * |ports|
  {
    match Search(probe, hosts, ports)
    case Some((i, j)) =>
      MulStep(i, |hosts|, |ports|);
    case None =>
  }

  lemma MulStep(i: nat, h: nat, n: nat)
    requires i < h
    ensures i * n + n <= h * n
  {
    assert i * n + n == (i + 1) * n;
  }

  /** Discovery probes at most three times per candidate port. */
  lemma DiscoveryProbes(env: Environment, probe: (string, int) -> Answer)
    ensures var ports := PortCandidates(DefaultServerPort(env));
      ProbesUsed(probe, Hosts(env), ports) <= 3 * |ports|
  {
    ProbesBound(probe, Hosts(env), PortCandidates(DefaultServerPort(env)));
  }

  // ------------------------------------------------------ request wrapper

  /** How one run of a tool request ended: with a value, or by throwing. */
  datatype Outcome<T> = Returned(value: T) | Failed(message: string)

  /** What `withServerConnection` hands back: the request's value, or a
      text result, flagged as an error or not. */
  datatype ToolReply<T> = Value(value: T) | Notice(text: string, isError: bool)

  /** One run of the wrapper: the new adapter state, the reply, and how many
      times the request ran. */
  datatype Session<T> = Session(state: Adapter, reply: ToolReply<T>, calls: nat)

  const DISCOVERY_FAILED: string := "Failed to discover browser connector server. Please ensure it's running."

  function ReconnectFailed(message: string): string {
    "Failed to reconnect to server: " + message
  }

  function RetryFailed(message: string): string {
    "Error after reconnection attempt: " + message
  }

  /** `withServerConnection`. `probe` answers the discovery run before the
      first request, `reprobe` the rediscovery after it fails; `apiCall`
      answers a request given its attempt number (0 or 1) and the host and
      port recorded when it runs. */
  function Connect<T>(st: Adapter, env: Environment, probe: (string, int) -> Answer,
                      reprobe: (string, int) -> Answer, apiCall: (nat, string, int) -> Outcome<T>): Session<T>
  {
    Attempt(st, Locate(env, probe), Locate(env, reprobe), apiCall)
  }

  /** The wrapper given the address the discovery would find (`found`) and
      the one the rediscovery would find (`refound`); each is only consulted
      when that discovery runs. */
  function Attempt<T>(st: Adapter, found: Option<Adapter>, refound: Option<Adapter>,
                      apiCall: (nat, string, int) -> Outcome<T>): Session<T>
  {
    var s1 := if st.discovered then Some(st) else found;
    if s1.None? then Session(st, Notice(DISCOVERY_FAILED, true), 0)
    else
      var cur := s1.value;
      match apiCall(0, cur.host, cur.port)
      case Returned(v) => Session(cur, Value(v), 1)
      case Failed(e) =>
        if refound.None? then Session(cur.(discovered := false), Notice(ReconnectFailed(e), false), 1)
        else
          var next := refound.value;
          match apiCall(1, next.host, next.port)
          case Returned(v) => Session(next, Value(v), 2)
          case Failed(e2) => Session(next, Notice(RetryFailed(e2), false), 2)
  }

  /** The request runs at most twice. It never runs when the server was not
      yet discovered and discovery finds nothing, and that is the only reply
      flagged as an error. A request that returns leaves the server marked
      discovered; a failed rediscovery leaves it marked undiscovered. */
  lemma ConnectSpec<T>(st: Adapter, found: Option<Adapter>, refound: Option<Adapter>,
                       apiCall: (nat, string, int) -> Outcome<T>)
    requires found.Some? ==> found.value.discovered
    requires refound.Some? ==> refound.value.discovered
    ensures var r := Attempt(st, found, refound, apiCall);
      && r.calls <= 2
      && (r.calls == 0 <==> !st.discovered && found.None?)
      && (r.calls == 0 ==> r.reply == Notice(DISCOVERY_FAILED, true) && r.state == st)
      && (r.reply.Notice? && r.reply.isError ==> r.calls == 0)
      && (r.reply.Value? ==> r.state.discovered)
      && (r.calls == 1 && r.reply.Notice? ==> !r.state.discovered && refound.None?)
  {
  }

  /** The second run follows a thrown first run and a successful
      rediscovery, and addresses the rediscovered server; its failure is
      reported without the error flag. */
  lemma RetrySpec<T>(st: Adapter, found: Option<Adapter>, refound: Option<Adapter>,
                     apiCall: (nat, string, int) -> Outcome<T>)
    ensures var r := Attempt(st, found, refound, apiCall);
      var s1 := if st.discovered then st else found.GetOr(st);
      r.calls == 2 ==>
        && apiCall(0, s1.host, s1.port).Failed?
        && refound == Some(r.state)
        && r.reply == (match apiCall(1, r.state.host, r.state.port)
                       case Returned(v) => Value(v)
                       case Failed(e) => Notice(RetryFailed(e), false))
  {
  }

  /** A request that catches its own errors never triggers a rediscovery:
      it runs at most once, against the address discovery recorded. */
  lemma CaughtErrorsNeverRetry<T>(st: Adapter, found: Option<Adapter>, refound: Option<Adapter>,
                                  apiCall: (nat, string, int) -> Outcome<T>)
    requires forall k, h, p :: apiCall(k, h, p).Returned?
    ensures var r := Attempt(st, found, refound, apiCall);
      && r.calls <= 1
      && r.state == (if st.discovered || found.None? then st else found.value)
      && (r.calls == 1 ==> r.reply == Value(apiCall(0, r.state.host, r.state.port).value))
  {
  }

  /** A request whose target was fixed before the wrapper ran (the network
      details tool builds its URL first) retries the old address even when
      the rediscovery moved to another one. */
  lemma FixedTargetRetriesOldAddress<T>(st: Adapter, found: Option<Adapter>, refound: Option<Adapter>,
                                        fetch: (nat, string, int) -> Outcome<T>)
    requires st.discovered
    ensures var apiCall := (k: nat, h: string, p: int) => fetch(k, st.host, st.port);
      var r := Attempt(st, found, refound, apiCall);
      r.calls == 2 ==> r.reply == (match fetch(1, st.host, st.port)
                                   case Returned(v) => Value(v)
                                   case Failed(e) => Notice(RetryFailed(e), false))
  {
  }

  /** The MCP process's record of the relay's address, updated by discovery
      and by the request wrapper. */
  class ToolAdapter {
    var discoveredHost: string
    var discoveredPort: int
    var serverDiscovered: bool

    function State(): Adapter
      reads this
    {
      Adapter(discoveredHost, discoveredPort, serverDiscovered)
    }

    constructor()
      ensures State() == INITIAL
    {
      discoveredHost := DEFAULT_HOST;
      discoveredPort := DEFAULT_PORT;
      serverDiscovered := false;
    }

    /** `discoverServer`: builds the candidate lists, scans them, and
        records the first host and port that answered with the relay's
        signature. */
    method DiscoverServer(env: Environment, probe: (string, int) -> Answer) returns (found: bool, probes: nat)
      modifies this
      ensures found <==> Locate(env, probe).Some?
      ensures State() == if found then Locate(env, probe).value else old(State())
      ensures probes == ProbesUsed(probe, Hosts(env), PortCandidates(DefaultServerPort(env)))
    {
      var hosts := [DefaultServerHost(env), DEFAULT_HOST, "localhost"];
      var ports := CandidatePorts(DefaultServerPort(env));
      var hit;
      hit, probes := Scan(probe, hosts, ports);
      if hit.Some? {
        discoveredHost := hosts[hit.value.0];
        discoveredPort := ports[hit.value.1];
        serverDiscovered := true;
        found := true;
      } else {
        found := false;
      }
    }

    /** `withServerConnection`: discovers the server when needed, runs the
        request, and after a thrown request marks the server undiscovered,
        rediscovers once and retries once. */
    method WithServerConnection<T>(env: Environment, probe: (string, int) -> Answer,
                                   reprobe: (string, int) -> Answer, apiCall: (nat, string, int) -> Outcome<T>)
      returns (reply: ToolReply<T>, calls: nat)
      modifies this
      ensures Session(State(), reply, calls) == Connect(old(State()), env, probe, reprobe, apiCall)
    {
      calls := 0;
      if !serverDiscovered {
        var discovered, _ := DiscoverServer(env, probe);
        if !discovered {
          return Notice(DISCOVERY_FAILED, true), 0;
        }
      }
      calls := 1;
      var first := apiCall(0, discoveredHost, discoveredPort);
      if first.Returned? {
        return Value(first.value), calls;
      }
      serverDiscovered := false;
      var again, _ := DiscoverServer(env, reprobe);
      if !again {
        return Notice(ReconnectFailed(first.message), false), calls;
      }
      calls := 2;
      var second := apiCall(1, discoveredHost, discoveredPort);
      if second.Returned? {
        reply := Value(second.value);
      } else {
        reply := Notice(RetryFailed(second.message), false);
      }
    }
  }

  /** The port list of `discoverServer`: the default port, then each port
      of the fallback range other than the default, pushed in turn. */
  method CandidatePorts(defaultPort: int) returns (ports: seq<int>)
    ensures ports == PortCandidates(defaultPort)
  {
    ports := [defaultPort];
    var p := FALLBACK_FIRST;
    while p <= FALLBACK_LAST
      invariant FALLBACK_FIRST <= p <= FALLBACK_LAST + 1
      invariant ports == [defaultPort] + FallbackPorts(defaultPort, p - 1)
    {
      if p != defaultPort {
        ports := ports + [p];
      }
      p := p + 1;
    }
  }

  /** The nested scan of `discoverServer`: host by host, port by port,
      stopping at the first identity with the relay's signature. */
  method Scan(probe: (string, int) -> Answer, hosts: seq<string>, ports: seq<int>)
    returns (hit: Option<(nat, nat)>, probes: nat)
    ensures hit == Search(probe, hosts, ports)
    ensures probes == ProbesUsed(probe, hosts, ports)
  {
    probes := 0;
    var i := 0;
    while i < |hosts|
      invariant 0 <= i <= |hosts|
      invariant Search(probe, hosts[..i], ports) == None
      invariant probes == i * |ports|
    {
      var j := 0;
      while j < |ports|
        invariant 0 <= j <= |ports|
        invariant SearchPorts(probe, hosts[i], ports[..j]) == None
        invariant probes == i * |ports| + j
      {
        probes := probes + 1;
        var answer := probe(hosts[i], ports[j]);
        if answer.Identity? && answer.signature == SIGNATURE {
          FoundHere(probe, hosts, ports, i, j);
          return Some((i, j)), probes;
        }
        assert ports[..j + 1][..j] == ports[..j];
        j := j + 1;
      }
      assert ports[..|ports|] == ports;
      assert hosts[..i + 1][..i] == hosts[..i];
      assert probes == (i + 1) * |ports|;
      i := i + 1;
    }
    assert hosts[..|hosts|] == hosts;
    hit := None;
  }

  /** The scan stops at `(i, j)` when nothing before it was accepted and it
      is accepted. */
  lemma FoundHere(probe: (string, int) -> Answer, hosts: seq<string>, ports: seq<int>, i: nat, j: nat)
    requires i < |hosts| && j < |ports|
    requires Search(probe, hosts[..i], ports) == None
    requires SearchPorts(probe, hosts[i], ports[..j]) == None
    requires Accepts(probe, hosts[i], ports[j])
    ensures Search(probe, hosts, ports) == Some((i, j))
    ensures ProbesUsed(probe, hosts, ports) == i * |ports| + j + 1
  {
    forall i', j' | 0 <= i' < i && 0 <= j' < |ports| ensures !Accepts(probe, hosts[i'], ports[j']) {
      assert hosts[..i][i'] == hosts[i'];
    }
    forall j' | 0 <= j' < j ensures !Accepts(probe, hosts[i], ports[j']) {
      assert ports[..j][j'] == ports[j'];
    }
    assert FirstMatch(probe, hosts, ports, i, j);
    var r := Search(probe, hosts, ports);
    FirstMatchUnique(probe, hosts, ports, i, j, r.value.0, r.value.1);
  }
}

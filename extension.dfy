/**
 * The browser extension's background client: it finds the relay server by
 * its identity endpoint, keeps a WebSocket to it with a bounded exponential
 * reconnect backoff, tracks XHR/fetch requests from the webRequest events
 * and forwards each finished one, caches the URL of every tab, and pushes
 * URL changes to the server with a bounded retry loop.
 *
 * Timers, `fetch`, the socket and the Chrome APIs are events and
 * parameters: a timer firing is an event, a fetch result is an argument.
 */
module Extension {
  import opened Wrappers
  import opened Json
  import Discovery

  // ------------------------------------------------------------ identity

  /** What a GET of `/.identity` produced: the fetch failed, or a response
      with its `ok` flag and its body parsed as JSON (None when the body is
      not JSON, which makes `response.json()` throw). */
  datatype IdentityReply = Unreachable | Reply(ok: bool, body: Option<Json>)

  predicate Signed(body: Option<Json>) {
    body.Some? && Field(body.value, "signature") == Some(JStr(Discovery.SIGNATURE))
  }

  /** `validateServerIdentity`: an ok response whose signature is the relay
      server's; a failure anywhere is `false`. */
  function ValidateServerIdentity(r: IdentityReply): bool {
    r.Reply? && r.ok && Signed(r.body)
  }

  /** The check `tryConnection` applies: it parses the body without looking
      at `ok`. */
  function ProbeAccepts(r: IdentityReply): bool {
    r.Reply? && Signed(r.body)
  }

  /** Validation is the probe's check plus `ok`: whatever validates is
      accepted by the probe, an unreachable server or a body that is not
      JSON passes neither, and a failed status with the right signature
      passes the probe only. */
  lemma IdentityChecks(r: IdentityReply, body: Json)
    ensures ValidateServerIdentity(r) <==> ProbeAccepts(r) && r.ok
    ensures r.Unreachable? || (r.Reply? && r.body.None?) ==> !ValidateServerIdentity(r) && !ProbeAccepts(r)
    ensures Field(body, "signature") == Some(JStr(Discovery.SIGNATURE)) ==>
      ProbeAccepts(Reply(false, Some(body))) && !ValidateServerIdentity(Reply(false, Some(body)))
  {
  }

  // ---------------------------------------------------------- connection

  const MAX_RECONNECT_ATTEMPTS: nat := 5
  const MAX_BACKOFF: nat := 30000
  /** The ports `tryConnection` tries, in order. */
  const PORTS: seq<int> := [3026, 3025, 3027]

  function Pow2(n: nat): nat {
    if n == 0 then 1 else 2 * Pow2(n - 1)
  }

  /** `Math.min(1000 * Math.pow(2, n), 30000)`. */
  function Backoff(n: nat): nat {
    if 1000 * Pow2(n) < MAX_BACKOFF then 1000 * Pow2(n) else MAX_BACKOFF
  }

  /** The connection globals: the reconnect counter, the delay of the
      scheduled reconnect (`reconnectTimeout`, None when there is none), the
      port of the current socket (`wsConnection`) and the port saved to
      storage after an open. Each call of `connectToBrowserConnector` starts
      a cycle whose `tryConnection` closure keeps its own
      `currentPortIndex`; `cycles` holds those indices, oldest cycle first.
      A cycle does not stop when a later one starts. */
  datatype Link = Link(reconnectAttempts: nat, reconnectDelay: Option<nat>, cycles: seq<nat>,
                       socketPort: Option<int>, savedPort: Option<int>)

  const LINK_INITIAL := Link(0, None, [], None, None)

  /** `scheduleReconnect`. */
  function Rescheduled(c: Link): Link {
    if c.reconnectAttempts >= MAX_RECONNECT_ATTEMPTS then c
    else c.(reconnectAttempts := c.reconnectAttempts + 1, reconnectDelay := Some(Backoff(c.reconnectAttempts + 1)))
  }

  /** `currentPortIndex++` in cycle `k`. */
  function Advanced(c: Link, k: nat): (r: Link)
    requires k < |c.cycles|
    ensures |r.cycles| == |c.cycles| && r.cycles[k] == c.cycles[k] + 1
    ensures forall j :: 0 <= j < |c.cycles| && j != k ==> r.cycles[j] == c.cycles[j]
    ensures r.(cycles := c.cycles) == c
  {
    c.(cycles := c.cycles[k := c.cycles[k] + 1])
  }

  /** `tryConnection` of cycle `k`: the port to probe next, or a scheduled
      reconnect once the cycle tried every port. */
  function NextProbe(c: Link, k: nat): (Link, Option<int>)
    requires k < |c.cycles|
  {
    if c.cycles[k] >= |PORTS| then (Rescheduled(c), None) else (c, Some(PORTS[c.cycles[k]]))
  }

  /** `connectToBrowserConnector`: clears the pending reconnect and starts a
      new cycle at the first port. */
  function Connect(c: Link): (Link, Option<int>) {
    NextProbe(c.(reconnectDelay := None, cycles := c.cycles + [0]), |c.cycles|)
  }

  /** The identity reply from `port` to cycle `k`: an accepted one opens a
      socket to it, any other moves that cycle on to the next port. */
  function Probed(c: Link, k: nat, port: int, r: IdentityReply): Link
    requires k < |c.cycles|
  {
    if ProbeAccepts(r) then c.(socketPort := Some(port)) else Advanced(c, k)
  }

  /** `onopen`: the only place the counter is reset. */
  function Opened(c: Link, port: int): Link {
    c.(reconnectAttempts := 0, savedPort := Some(port))
  }

  /** `onclose`. */
  function Closed(c: Link): Link {
    Rescheduled(c.(socketPort := None))
  }

  /** `onerror` of a socket opened by cycle `k`: that cycle tries its next
      port after a pause. */
  function Errored(c: Link, k: nat): Link
    requires k < |c.cycles|
  {
    Advanced(c.(socketPort := None), k)
  }

  datatype LinkEvent =
    | ReconnectFires                                      // the reconnect timer fires
    | RetryFires(cycle: nat)                              // a cycle's one-second retry timer fires
    | IdentityAnswered(cycle: nat, port: int, reply: IdentityReply)
    | SocketOpened(port: int)
    | SocketClosed
    | SocketErrored(cycle: nat)

  /** The cycle an event belongs to, if any. */
  function CycleOf(e: LinkEvent): Option<nat> {
    match e
    case RetryFires(k) => Some(k)
    case IdentityAnswered(k, _, _) => Some(k)
    case SocketErrored(k) => Some(k)
    case _ => None
  }

  /** One event, with the port it makes the client probe, if any. An event
      of a cycle that was never started changes nothing. */
  function Step(c: Link, e: LinkEvent): (Link, Option<int>) {
    match e
    case ReconnectFires => Connect(c)
    case RetryFires(k) => if k < |c.cycles| then NextProbe(c, k) else (c, None)
    case IdentityAnswered(k, port, r) => if k < |c.cycles| then (Probed(c, k, port, r), None) else (c, None)
    case SocketOpened(port) => (Opened(c, port), None)
    case SocketClosed => (Closed(c), None)
    case SocketErrored(k) => if k < |c.cycles| then (Errored(c, k), None) else (c, None)
  }

  /** A run of events: the final state and the ports probed, in order. */
  function Run(c: Link, es: seq<LinkEvent>): (Link, seq<int>)
    decreases |es|
  {
    if es == [] then (c, [])
    else
      var prev := Run(c, es[..|es| - 1]);
      var next := Step(prev.0, es[|es| - 1]);
      (next.0, prev.1 + Probes(next.1))
  }

  function Probes(p: Option<int>): seq<int> {
    if p.Some? then [p.value] else []
  }

  /** A run extended by one event takes that event's step. */
  lemma RunSnoc(c: Link, es: seq<LinkEvent>, e: LinkEvent)
    ensures Run(c, es + [e]) == (Step(Run(c, es).0, e).0, Run(c, es).1 + Probes(Step(Run(c, es).0, e).1))
  {
    assert (es + [e])[..|es|] == es;
  }

  /** Whether an event schedules a reconnect. */
  predicate Schedules(c: Link, e: LinkEvent) {
    Step(c, e).0.reconnectAttempts > c.reconnectAttempts
  }

  /** How many reconnects a run schedules. */
  function Reconnects(c: Link, es: seq<LinkEvent>): nat
    decreases |es|
  {
    if es == [] then 0
    else
      var init := es[..|es| - 1];
      Reconnects(c, init) + (if Schedules(Run(c, init).0, es[|es| - 1]) then 1 else 0)
  }

  /** The delays are 2, 4, 8 and 16 seconds, then 30 seconds. */
  lemma BackoffValues()
    ensures Backoff(1) == 2000 && Backoff(2) == 4000 && Backoff(3) == 8000
    ensures Backoff(4) == 16000 && Backoff(5) == 30000
    ensures forall n: nat :: Backoff(n) <= MAX_BACKOFF
  {
    assert Pow2(5) == 32;
  }

  /** Scheduling does nothing once five reconnects were scheduled; before
      that it counts one more and waits the backoff for the new count. */
  lemma ScheduleReconnectSpec(c: Link)
    ensures c.reconnectAttempts >= MAX_RECONNECT_ATTEMPTS ==> Rescheduled(c) == c
    ensures c.reconnectAttempts < MAX_RECONNECT_ATTEMPTS ==>
      var d := Rescheduled(c);
      && d.reconnectAttempts == c.reconnectAttempts + 1 <= MAX_RECONNECT_ATTEMPTS
      && d.reconnectDelay == Some(Backoff(d.reconnectAttempts))
      && d.(reconnectAttempts := c.reconnectAttempts, reconnectDelay := c.reconnectDelay) == c
  {
  }

  /** An event other than an open never lowers the counter, raises it by at
      most one, and never past five. */
  lemma StepCounter(c: Link, e: LinkEvent)
    requires !e.SocketOpened?
    ensures var n := Step(c, e).0.reconnectAttempts;
      c.reconnectAttempts <= n <= c.reconnectAttempts + 1
      && (c.reconnectAttempts <= MAX_RECONNECT_ATTEMPTS ==> n <= MAX_RECONNECT_ATTEMPTS)
  {
  }

  /** Without a successful open, a run schedules at most five reconnects in
      all, fewer by the count it starts from. */
  lemma {:induction false} ReconnectsBounded(c: Link, es: seq<LinkEvent>)
    requires c.reconnectAttempts <= MAX_RECONNECT_ATTEMPTS
    requires forall i :: 0 <= i < |es| ==> !es[i].SocketOpened?
    ensures Run(c, es).0.reconnectAttempts == c.reconnectAttempts + Reconnects(c, es)
    ensures Run(c, es).0.reconnectAttempts <= MAX_RECONNECT_ATTEMPTS
    ensures Reconnects(c, es) <= MAX_RECONNECT_ATTEMPTS - c.reconnectAttempts
    decreases |es|
  {
    if es != [] {
      var init := es[..|es| - 1];
      ReconnectsBounded(c, init);
      StepCounter(Run(c, init).0, es[|es| - 1]);
    }
  }

  /** Cycles do not share their index: a reconnect adds a new cycle at the
      first port, and any other event moves at most the index of its own
      cycle, by at most one. */
  lemma CyclesIndependent(c: Link, e: LinkEvent)
    ensures var d := Step(c, e).0;
      && |d.cycles| == |c.cycles| + (if e.ReconnectFires? then 1 else 0)
      && (e.ReconnectFires? ==> d.cycles[|c.cycles|] == 0)
      && (forall j :: 0 <= j < |c.cycles| && CycleOf(e) != Some(j) ==> d.cycles[j] == c.cycles[j])
      && (forall j :: 0 <= j < |c.cycles| ==> c.cycles[j] <= d.cycles[j] <= c.cycles[j] + 1)
  {
  }

  /** A probe of `port` by cycle `k` that is refused, then that cycle's
      retry timer. */
  function Refused(k: nat, port: int, r: IdentityReply): seq<LinkEvent> {
    [IdentityAnswered(k, port, r), RetryFires(k)]
  }

  /** After any history, a reconnect whose every probe is refused probes
      3026, 3025 and 3027 in that order and then schedules the next
      reconnect. */
  lemma PortCycle(c: Link, es: seq<LinkEvent>, r0: IdentityReply, r1: IdentityReply, r2: IdentityReply)
    requires !ProbeAccepts(r0) && !ProbeAccepts(r1) && !ProbeAccepts(r2)
    ensures var d := Run(c, es);
      var k := |d.0.cycles|;
      Run(c, es + [ReconnectFires] + Refused(k, 3026, r0) + Refused(k, 3025, r1) + Refused(k, 3027, r2))
        == (Rescheduled(d.0.(reconnectDelay := None, cycles := d.0.cycles + [3])), d.1 + PORTS)
  {
    var d := Run(c, es);
    var k := |d.0.cycles|;
    var c0 := d.0.(reconnectDelay := None, cycles := d.0.cycles + [0]);
    var e1 := es + [ReconnectFires];
    var e2 := e1 + Refused(k, 3026, r0);
    var e3 := e2 + Refused(k, 3025, r1);
    CycleStarts(c, es);
    CycleMoves(c, e1, k, 3026, r0, c0, d.1 + [3026]);
    assert d.1 + [3026] + [3025] == d.1 + [3026, 3025];
    var c1 := Advanced(c0, k);
    assert c1 == d.0.(reconnectDelay := None, cycles := d.0.cycles + [1]);
    CycleMoves(c, e2, k, 3025, r1, c1, d.1 + [3026, 3025]);
    assert d.1 + [3026, 3025] + [3027] == d.1 + PORTS;
    var c2 := Advanced(c1, k);
    assert c2 == d.0.(reconnectDelay := None, cycles := d.0.cycles + [2]);
    CycleEnds(c, e3, k, 3027, r2, c2, d.1 + PORTS);
    assert Advanced(c2, k) == d.0.(reconnectDelay := None, cycles := d.0.cycles + [3]);
  }

  /** A reconnect starts a new cycle at the first port. */
  lemma CycleStarts(c: Link, es: seq<LinkEvent>)
    ensures var d := Run(c, es);
      Run(c, es + [ReconnectFires]) == (d.0.(reconnectDelay := None, cycles := d.0.cycles + [0]), d.1 + [3026])
  {
    RunSnoc(c, es, ReconnectFires);
  }

  /** A refused probe of cycle `k` before its last port leads to a probe of
      the next. */
  lemma CycleMoves(c: Link, es: seq<LinkEvent>, k: nat, port: int, r: IdentityReply, d: Link, probes: seq<int>)
    requires !ProbeAccepts(r) && Run(c, es) == (d, probes) && k < |d.cycles| && d.cycles[k] + 1 < |PORTS|
    ensures Run(c, es + Refused(k, port, r)) == (Advanced(d, k), probes + [PORTS[d.cycles[k] + 1]])
  {
    RunRefusedRetry(c, es, k, port, r);
  }

  /** A refused probe of cycle `k` at its last port leads to a scheduled
      reconnect. */
  lemma CycleEnds(c: Link, es: seq<LinkEvent>, k: nat, port: int, r: IdentityReply, d: Link, probes: seq<int>)
    requires !ProbeAccepts(r) && Run(c, es) == (d, probes) && k < |d.cycles| && d.cycles[k] + 1 == |PORTS|
    ensures Run(c, es + Refused(k, port, r)) == (Rescheduled(Advanced(d, k)), probes)
  {
    RunRefusedRetry(c, es, k, port, r);
    assert probes + Probes(None) == probes;
  }

  /** A refused probe followed by the cycle's retry timer: the cycle moves
      to its next port and probes it, or schedules a reconnect after the
      last. */
  lemma RunRefusedRetry(c: Link, es: seq<LinkEvent>, k: nat, port: int, r: IdentityReply)
    requires !ProbeAccepts(r) && k < |Run(c, es).0.cycles|
    ensures var d := Run(c, es);
      var e := Advanced(d.0, k);
      Run(c, es + Refused(k, port, r)) == (NextProbe(e, k).0, d.1 + Probes(NextProbe(e, k).1))
  {
    RunSnoc(c, es, IdentityAnswered(k, port, r));
    assert Run(c, es).1 + Probes(None) == Run(c, es).1;
    RunSnoc(c, es + [IdentityAnswered(k, port, r)], RetryFires(k));
    assert es + [IdentityAnswered(k, port, r)] + [RetryFires(k)] == es + Refused(k, port, r);
  }

  /** A reconnect during a cycle does not restart that cycle: with cycle
      `k` refused at 3026 and about to retry, a reconnect probes 3026 for
      its own new cycle, and cycle `k`'s retry then probes 3025 rather than
      starting over. */
  lemma OverlappingCyclesKeepTheirPorts(c: Link, es: seq<LinkEvent>, k: nat, r: IdentityReply)
    requires !ProbeAccepts(r)
    requires var d := Run(c, es).0; k < |d.cycles| && d.cycles[k] == 0
    ensures var d := Run(c, es);
      var run := Run(c, es + [IdentityAnswered(k, 3026, r), ReconnectFires, RetryFires(k)]);
      && run.1 == d.1 + [3026, 3025]
      && run.0.cycles == d.0.cycles[k := 1] + [0]
  {
    var d := Run(c, es);
    var e1 := es + [IdentityAnswered(k, 3026, r)];
    var e2 := e1 + [ReconnectFires];
    RunSnoc(c, es, IdentityAnswered(k, 3026, r));
    var a := Advanced(d.0, k);
    assert d.1 + Probes(None) == d.1;
    assert Run(c, e1) == (a, d.1);
    RunSnoc(c, e1, ReconnectFires);
    var b := a.(reconnectDelay := None, cycles := a.cycles + [0]);
    assert Connect(a) == (b, Some(3026));
    assert Run(c, e2) == (b, d.1 + [3026]);
    RunSnoc(c, e2, RetryFires(k));
    assert b.cycles[k] == 1;
    assert NextProbe(b, k) == (b, Some(3025));
    assert b.cycles == d.0.cycles[k := 1] + [0];
    assert e2 + [RetryFires(k)] == es + [IdentityAnswered(k, 3026, r), ReconnectFires, RetryFires(k)];
  }

  /** A socket error also moves its cycle on to the next port, and a socket
      to an accepted port is the only way `wsConnection` is set. */
  lemma ProbeOutcomes(c: Link, k: nat, port: int, r: IdentityReply)
    requires k < |c.cycles|
    ensures ProbeAccepts(r) ==> Probed(c, k, port, r).socketPort == Some(port) && Probed(c, k, port, r).cycles == c.cycles
    ensures !ProbeAccepts(r) ==> Probed(c, k, port, r) == Errored(c, k).(socketPort := c.socketPort)
    ensures Step(c, SocketErrored(k)).0.socketPort.None?
  {
  }

  // ------------------------------------------------------ network monitor

  /** A tracked request as `pendingRequests` holds it. An absent status is
      0, as the forwarding code reads it with `|| 0`. */
  datatype NetRequest = NetRequest(url: string, httpMethod: string, timestamp: int, tabId: int,
                                   requestBody: string, kind: string, requestHeaders: seq<Json>,
                                   responseHeaders: seq<Json>, status: int, error: Option<string>)

  /** The request map and the requests handed to
      `sendNetworkRequestToBrowserConnector`, in order. */
  datatype Monitor = Monitor(pending: map<string, NetRequest>, forwarded: seq<NetRequest>)

  predicate Tracked(kind: string) {
    kind == "xmlhttprequest" || kind == "fetch"
  }

  /** `onBeforeRequest`: only XHR and fetch requests are tracked; the body is
      its serialised form, "" when there is none. */
  function Began(m: Monitor, id: string, url: string, httpMethod: string, now: int, tabId: int,
                 body: Option<string>, kind: string): Monitor {
    if Tracked(kind) then
      m.(pending := m.pending[id := NetRequest(url, httpMethod, now, tabId, body.GetOr(""), kind, [], [], 0, None)])
    else m
  }

  /** `onBeforeSendHeaders`. */
  function HeadersSent(m: Monitor, id: string, headers: Option<seq<Json>>): Monitor {
    if id in m.pending then m.(pending := m.pending[id := m.pending[id].(requestHeaders := headers.GetOr([]))])
    else m
  }

  /** `onHeadersReceived`. */
  function HeadersReceived(m: Monitor, id: string, status: int, headers: Option<seq<Json>>): Monitor {
    if id in m.pending then
      m.(pending := m.pending[id := m.pending[id].(status := status, responseHeaders := headers.GetOr([]))])
    else m
  }

  /** Forwards a tracked request with its final fields and forgets it. */
  function Settle(m: Monitor, id: string, last: NetRequest): Monitor {
    Monitor(m.pending - {id}, m.forwarded + [last])
  }

  /** `onCompleted`. */
  function Completed(m: Monitor, id: string, status: int): Monitor {
    if id in m.pending then Settle(m, id, m.pending[id].(status := status)) else m
  }

  /** `onErrorOccurred`: status 0 marks the error. */
  function Failed(m: Monitor, id: string, error: string): Monitor {
    if id in m.pending then Settle(m, id, m.pending[id].(status := 0, error := Some(error))) else m
  }

  datatype RequestEvent =
    | BeforeRequest(id: string, url: string, httpMethod: string, now: int, tabId: int, body: Option<string>, kind: string)
    | BeforeSendHeaders(id: string, headers: Option<seq<Json>>)
    | HeadersArrived(id: string, status: int, headers: Option<seq<Json>>)
    | RequestCompleted(id: string, status: int)
    | RequestFailed(id: string, error: string)

  function Apply(m: Monitor, e: RequestEvent): Monitor {
    match e
    case BeforeRequest(id, url, verb, now, tabId, body, kind) => Began(m, id, url, verb, now, tabId, body, kind)
    case BeforeSendHeaders(id, headers) => HeadersSent(m, id, headers)
    case HeadersArrived(id, status, headers) => HeadersReceived(m, id, status, headers)
    case RequestCompleted(id, status) => Completed(m, id, status)
    case RequestFailed(id, error) => Failed(m, id, error)
  }

  function ApplyAll(m: Monitor, es: seq<RequestEvent>): Monitor
    decreases |es|
  {
    if es == [] then m else Apply(ApplyAll(m, es[..|es| - 1]), es[|es| - 1])
  }

  /** How many events of a run start tracking a request. */
  function Starts(es: seq<RequestEvent>): nat
    decreases |es|
  {
    if es == [] then 0
    else
      var e := es[|es| - 1];
      Starts(es[..|es| - 1]) + (if e.BeforeRequest? && Tracked(e.kind) then 1 else 0)
  }

  /** Only a tracked kind adds a key; a request seen again replaces its
      entry; nothing is forwarded. */
  lemma BeganSpec(m: Monitor, id: string, url: string, httpMethod: string, now: int, tabId: int,
                  body: Option<string>, kind: string)
    ensures var n := Began(m, id, url, httpMethod, now, tabId, body, kind);
      && n.forwarded == m.forwarded
      && (forall k :: k in n.pending <==> k in m.pending || (k == id && Tracked(kind)))
      && (Tracked(kind) ==> n.pending[id].status == 0 && n.pending[id].requestBody == body.GetOr("")
                            && n.pending[id].url == url)
      && (!Tracked(kind) ==> n == m)
  {
  }

  /** Header events touch only the entry of a tracked request and never add
      or remove one. */
  lemma HeadersSpec(m: Monitor, id: string, status: int, headers: Option<seq<Json>>)
    ensures var a := HeadersSent(m, id, headers);
      var b := HeadersReceived(m, id, status, headers);
      && a.pending.Keys == m.pending.Keys && b.pending.Keys == m.pending.Keys
      && a.forwarded == m.forwarded && b.forwarded == m.forwarded
      && (forall k :: k in m.pending && k != id ==> a.pending[k] == m.pending[k] && b.pending[k] == m.pending[k])
      && (id in m.pending ==> b.pending[id].status == status)
      && (id !in m.pending ==> a == m && b == m)
  {
  }

  /** Completion or failure forwards a tracked request once, with its final
      status (0 after a failure), and forgets it; an untracked id changes
      nothing. */
  lemma SettleSpec(m: Monitor, id: string, status: int, error: string)
    ensures var c := Completed(m, id, status);
      var f := Failed(m, id, error);
      && (id in m.pending ==>
            && c.pending.Keys == m.pending.Keys - {id} && f.pending.Keys == m.pending.Keys - {id}
            && c.forwarded == m.forwarded + [m.pending[id].(status := status)]
            && f.forwarded == m.forwarded + [m.pending[id].(status := 0, error := Some(error))])
      && (id !in m.pending ==> c == m && f == m)
  {
  }

  /** Each tracked request is forwarded at most once: over any run, the
      requests forwarded plus those still pending never outnumber those
      pending at the start plus the requests that started. */
  lemma {:induction false} ForwardedOnce(m: Monitor, es: seq<RequestEvent>)
    ensures var n := ApplyAll(m, es);
      |n.forwarded| >= |m.forwarded|
      && |n.forwarded| - |m.forwarded| + |n.pending| <= |m.pending| + Starts(es)
    decreases |es|
  {
    if es != [] {
      var init := es[..|es| - 1];
      ForwardedOnce(m, init);
      var d := ApplyAll(m, init);
      var e := es[|es| - 1];
      match e {
        case BeforeRequest(id, url, verb, now, tabId, body, kind) =>
        case BeforeSendHeaders(id, headers) =>
          assert HeadersSent(d, id, headers).pending.Keys == d.pending.Keys;
        case HeadersArrived(id, status, headers) =>
          assert HeadersReceived(d, id, status, headers).pending.Keys == d.pending.Keys;
        case RequestCompleted(id, status) =>
          if id in d.pending {
            assert |d.pending - {id}| == |d.pending| - 1 by { MapRemoveSize(d.pending, id); }
          }
        case RequestFailed(id, error) =>
          if id in d.pending {
            assert |d.pending - {id}| == |d.pending| - 1 by { MapRemoveSize(d.pending, id); }
          }
      }
    }
  }

  lemma MapRemoveSize<K, V>(m: map<K, V>, k: K)
    requires k in m
    ensures |m - {k}| == |m| - 1
  {
    assert (m - {k}).Keys == m.Keys - {k};
    assert |m.Keys - {k}| == |m.Keys| - 1;
  }

  // ----------------------------------------------------------- tab cache

  /** `getCurrentTabUrl`: the cached URL when there is one; otherwise the
      tab's own URL, else the active tab's, cached under `tabId`; None when
      neither is known. A Chrome API error is an absent URL. */
  function CurrentTabUrl(tabs: map<int, string>, tabId: int, tabUrl: Option<string>, activeUrl: Option<string>)
    : (map<int, string>, Option<string>)
  {
    if tabId in tabs then (tabs, Some(tabs[tabId]))
    else if tabUrl.Some? && tabUrl.value != "" then (tabs[tabId := tabUrl.value], tabUrl)
    else if activeUrl.Some? && activeUrl.value != "" then (tabs[tabId := activeUrl.value], activeUrl)
    else (tabs, None)
  }

  /** A cached URL always wins; a URL that is found is cached under the tab,
      so the next lookup returns it from the cache; other tabs keep their
      URLs. */
  lemma CurrentTabUrlSpec(tabs: map<int, string>, tabId: int, tabUrl: Option<string>, activeUrl: Option<string>)
    ensures var (t, url) := CurrentTabUrl(tabs, tabId, tabUrl, activeUrl);
      && (tabId in tabs ==> url == Some(tabs[tabId]) && t == tabs)
      && (url.Some? <==> tabId in tabs || (tabUrl.Some? && tabUrl.value != "") || (activeUrl.Some? && activeUrl.value != ""))
      && (url.Some? ==> tabId in t && t[tabId] == url.value)
      && (tabId !in tabs && url.Some? ==> url.value != "")
      && (forall k :: k != tabId ==> (k in t <==> k in tabs) && (k in tabs ==> t[k] == tabs[k]))
      && (url.Some? ==> CurrentTabUrl(t, tabId, None, None) == (t, url))
  {
  }

  /** What a tab update does: the URLs it caches and pushes to the server,
      in order (a changed URL first, then the URL of a completed load). */
  function TabUpdated(tabs: map<int, string>, tabId: int, changedUrl: Option<string>, complete: bool, tabUrl: Option<string>)
    : (map<int, string>, seq<string>)
  {
    var changed := changedUrl.Some? && changedUrl.value != "";
    var loaded := complete && tabUrl.Some? && tabUrl.value != "";
    var t1 := if changed then tabs[tabId := changedUrl.value] else tabs;
    var t2 := if loaded then t1[tabId := tabUrl.value] else t1;
    var p1 := if changed then [changedUrl.value] else [];
    (t2, if loaded then p1 + [tabUrl.value] else p1)
  }

  /** After an update the tab's cached URL is the last one pushed, and an
      update that carries no URL changes nothing. */
  lemma TabUpdatedSpec(tabs: map<int, string>, tabId: int, changedUrl: Option<string>, complete: bool, tabUrl: Option<string>)
    ensures var (t, pushed) := TabUpdated(tabs, tabId, changedUrl, complete, tabUrl);
      && |pushed| <= 2
      && (pushed != [] ==> tabId in t && t[tabId] == pushed[|pushed| - 1])
      && (pushed == [] ==> t == tabs)
      && (forall u :: u in pushed ==> u != "")
      && (forall k :: k != tabId ==> (k in t <==> k in tabs) && (k in tabs ==> t[k] == tabs[k]))
  {
  }

  // ------------------------------------------------------------ URL push

  const MAX_URL_RETRIES: nat := 3

  /** The first attempt from `k` on whose POST succeeds, or 3 when none of
      the remaining attempts does. */
  function FirstOk(post: nat -> bool, k: nat): (r: nat)
    requires k <= MAX_URL_RETRIES
    ensures k <= r <= MAX_URL_RETRIES
    ensures r < MAX_URL_RETRIES ==> post(r)
    ensures forall j :: k <= j < r ==> !post(j)
    decreases MAX_URL_RETRIES - k
  {
    if k == MAX_URL_RETRIES || post(k) then k else FirstOk(post, k + 1)
  }

  /** The outcome of `updateServerWithUrl` when attempt `k` (from 0)
      succeeds exactly when `post(k)`: its response is ok and its body parses
      as JSON. A thrown fetch, a response that is not ok and a body that does
      not parse all fail the attempt. The result is the final `retryCount`
      and `success`. */
  function UrlUpdate(url: string, post: nat -> bool): (nat, bool) {
    if url == "" then (0, false)
    else
      var k := FirstOk(post, 0);
      (k, k < MAX_URL_RETRIES)
  }

  /** The POSTs an update makes. */
  function Posts(url: string, post: nat -> bool): nat {
    var (retries, success) := UrlUpdate(url, post);
    if success then retries + 1 else retries
  }

  /** An empty URL makes no request. Otherwise the update succeeds exactly
      when one of the first three attempts succeeds; it stops at
      the first such attempt, every attempt before it failed, and after
      three failures it gives up. */
  lemma UrlUpdateSpec(url: string, post: nat -> bool)
    ensures var (retries, success) := UrlUpdate(url, post);
      && retries <= MAX_URL_RETRIES && Posts(url, post) <= MAX_URL_RETRIES
      && (url == "" ==> Posts(url, post) == 0 && !success)
      && (success <==> url != "" && exists k :: 0 <= k < MAX_URL_RETRIES && post(k))
      && (success ==> post(retries))
      && (forall j :: 0 <= j < retries ==> !post(j))
      && (url != "" && !success ==> retries == MAX_URL_RETRIES)
  {
    if url != "" {
      var k := FirstOk(post, 0);
      if k == MAX_URL_RETRIES {
        assert forall j :: 0 <= j < MAX_URL_RETRIES ==> !post(j);
      }
    }
  }

  /** `updateServerWithUrl`'s retry loop: the final `retryCount` and
      `success`. */
  method UpdateServerWithUrl(url: string, post: nat -> bool) returns (retryCount: nat, success: bool)
    ensures (retryCount, success) == UrlUpdate(url, post)
  {
    retryCount := 0;
    success := false;
    if url == "" {
      return;
    }
    while retryCount < MAX_URL_RETRIES && !success
      invariant retryCount <= MAX_URL_RETRIES
      invariant FirstOk(post, 0) == FirstOk(post, retryCount)
      invariant success ==> retryCount < MAX_URL_RETRIES && post(retryCount)
      decreases MAX_URL_RETRIES - retryCount, !success
    {
      if post(retryCount) {
        success := true;
      } else {
        retryCount := retryCount + 1;
      }
    }
  }

  // ------------------------------------------------------------- globals

  /** The background script's module-level state. */
  class Background {
    var reconnectAttempts: nat
    var reconnectDelay: Option<nat>
    var cycles: seq<nat>
    var socketPort: Option<int>
    var savedPort: Option<int>
    var pendingRequests: map<string, NetRequest>
    var forwarded: seq<NetRequest>
    var tabUrls: map<int, string>

    function Connection(): Link
      reads this
    {
      Link(reconnectAttempts, reconnectDelay, cycles, socketPort, savedPort)
    }

    function Requests(): Monitor
      reads this
    {
      Monitor(pendingRequests, forwarded)
    }

    constructor()
      ensures Connection() == LINK_INITIAL && Requests() == Monitor(map[], []) && tabUrls == map[]
    {
      reconnectAttempts := 0;
      reconnectDelay := None;
      cycles := [];
      socketPort := None;
      savedPort := None;
      pendingRequests := map[];
      forwarded := [];
      tabUrls := map[];
    }

    method SetConnection(c: Link)
      modifies this
      ensures Connection() == c && Requests() == old(Requests()) && tabUrls == old(tabUrls)
    {
      reconnectAttempts := c.reconnectAttempts;
      reconnectDelay := c.reconnectDelay;
      cycles := c.cycles;
      socketPort := c.socketPort;
      savedPort := c.savedPort;
    }

    /** `scheduleReconnect`. */
    method ScheduleReconnect()
      modifies this
      ensures Connection() == Rescheduled(old(Connection()))
      ensures Requests() == old(Requests()) && tabUrls == old(tabUrls)
    {
      if reconnectAttempts >= MAX_RECONNECT_ATTEMPTS {
        return;
      }
      reconnectAttempts := reconnectAttempts + 1;
      reconnectDelay := Some(Backoff(reconnectAttempts));
    }

    /** `tryConnection` of cycle `k`. */
    method TryConnection(k: nat) returns (probe: Option<int>)
      requires k < |cycles|
      modifies this
      ensures (Connection(), probe) == NextProbe(old(Connection()), k)
      ensures Requests() == old(Requests()) && tabUrls == old(tabUrls)
    {
      if cycles[k] >= |PORTS| {
        ScheduleReconnect();
        return None;
      }
      probe := Some(PORTS[cycles[k]]);
    }

    /** `connectToBrowserConnector`. */
    method ConnectToBrowserConnector() returns (probe: Option<int>)
      modifies this
      ensures (Connection(), probe) == Connect(old(Connection()))
      ensures Requests() == old(Requests()) && tabUrls == old(tabUrls)
    {
      reconnectDelay := None;
      cycles := cycles + [0];
      probe := TryConnection(|cycles| - 1);
    }

    /** A connection event other than a timer. */
    method OnLinkEvent(e: LinkEvent) returns (probe: Option<int>)
      modifies this
      ensures (Connection(), probe) == Step(old(Connection()), e)
      ensures Requests() == old(Requests()) && tabUrls == old(tabUrls)
    {
      probe := None;
      match e {
        case ReconnectFires =>
          probe := ConnectToBrowserConnector();
        case RetryFires(k) =>
          if k < |cycles| {
            probe := TryConnection(k);
          }
        case IdentityAnswered(k, port, r) =>
          if k < |cycles| {
            if ProbeAccepts(r) {
              socketPort := Some(port);
            } else {
              cycles := cycles[k := cycles[k] + 1];
            }
          }
        case SocketOpened(port) =>
          reconnectAttempts := 0;
          savedPort := Some(port);
        case SocketClosed =>
          socketPort := None;
          ScheduleReconnect();
        case SocketErrored(k) =>
          if k < |cycles| {
            socketPort := None;
            cycles := cycles[k := cycles[k] + 1];
          }
      }
    }

    /** A webRequest event. */
    method OnRequestEvent(e: RequestEvent)
      modifies this
      ensures Requests() == Apply(old(Requests()), e)
      ensures Connection() == old(Connection()) && tabUrls == old(tabUrls)
    {
      match e {
        case BeforeRequest(id, url, verb, now, tabId, body, kind) =>
          if Tracked(kind) {
            pendingRequests := pendingRequests[id := NetRequest(url, verb, now, tabId, body.GetOr(""), kind, [], [], 0, None)];
          }
        case BeforeSendHeaders(id, headers) =>
          if id in pendingRequests {
            pendingRequests := pendingRequests[id := pendingRequests[id].(requestHeaders := headers.GetOr([]))];
          }
        case HeadersArrived(id, status, headers) =>
          if id in pendingRequests {
            pendingRequests := pendingRequests[id := pendingRequests[id].(status := status, responseHeaders := headers.GetOr([]))];
          }
        case RequestCompleted(id, status) =>
          if id in pendingRequests {
            forwarded := forwarded + [pendingRequests[id].(status := status)];
            pendingRequests := pendingRequests - {id};
          }
        case RequestFailed(id, error) =>
          if id in pendingRequests {
            forwarded := forwarded + [pendingRequests[id].(status := 0, error := Some(error))];
            pendingRequests := pendingRequests - {id};
          }
      }
    }

    /** `getCurrentTabUrl`. */
    method GetCurrentTabUrl(tabId: int, tabUrl: Option<string>, activeUrl: Option<string>) returns (url: Option<string>)
      modifies this
      ensures (tabUrls, url) == CurrentTabUrl(old(tabUrls), tabId, tabUrl, activeUrl)
      ensures Connection() == old(Connection()) && Requests() == old(Requests())
    {
      if tabId in tabUrls {
        return Some(tabUrls[tabId]);
      }
      if tabUrl.Some? && tabUrl.value != "" {
        tabUrls := tabUrls[tabId := tabUrl.value];
        return tabUrl;
      }
      if activeUrl.Some? && activeUrl.value != "" {
        tabUrls := tabUrls[tabId := activeUrl.value];
        return activeUrl;
      }
      return None;
    }

    /** `tabs.onUpdated`: returns the URLs handed to `updateServerWithUrl`. */
    method OnTabUpdated(tabId: int, changedUrl: Option<string>, complete: bool, tabUrl: Option<string>) returns (pushed: seq<string>)
      modifies this
      ensures (tabUrls, pushed) == TabUpdated(old(tabUrls), tabId, changedUrl, complete, tabUrl)
      ensures Connection() == old(Connection()) && Requests() == old(Requests())
    {
      pushed := [];
      if changedUrl.Some? && changedUrl.value != "" {
        tabUrls := tabUrls[tabId := changedUrl.value];
        pushed := [changedUrl.value];
      }
      if complete && tabUrl.Some? && tabUrl.value != "" {
        tabUrls := tabUrls[tabId := tabUrl.value];
        pushed := pushed + [tabUrl.value];
      }
    }

    /** `tabs.onActivated`: a tab with a URL is cached and pushed. */
    method OnTabActivated(tabId: int, tabUrl: Option<string>) returns (pushed: seq<string>)
      modifies this
      ensures (tabUrls, pushed) == TabUpdated(old(tabUrls), tabId, tabUrl, false, None)
      ensures Connection() == old(Connection()) && Requests() == old(Requests())
    {
      pushed := [];
      if tabUrl.Some? && tabUrl.value != "" {
        tabUrls := tabUrls[tabId := tabUrl.value];
        pushed := [tabUrl.value];
      }
    }

    /** `tabs.onRemoved`. */
    method OnTabRemoved(tabId: int)
      modifies this
      ensures tabUrls == old(tabUrls) - {tabId}
      ensures Connection() == old(Connection()) && Requests() == old(Requests())
    {
      tabUrls := tabUrls - {tabId};
    }
  }
}

/**
 * The WebSocket side of the relay server (`BrowserConnector`): one active
 * extension connection at a time, a heartbeat monitor, screenshot requests
 * matched with their replies by request id, and auth-token requests
 * answered over the same socket.
 *
 * Sockets are named by numbers. Clocks, timers and `Math.random` become the
 * parameters and events of the operations. A promise that an HTTP handler
 * awaits is a waiter, named by a number, and settling it is reported as a
 * `Settlement`; what is sent on or done to a socket is reported as an
 * `Outbound`.
 */
module Connector {
  import opened Wrappers
  import Text
  import Ordered
  import opened Json
  import LogStore
  import Screenshot

  const HEARTBEAT_INTERVAL: nat := 25000
  const HEARTBEAT_TIMEOUT: nat := 60000
  const CAPTURE_TIMEOUT: nat := 15000
  const AUTH_TIMEOUT: nat := 10000
  /** Close codes of section 7.4.1 of RFC 6455. */
  const NORMAL_CLOSURE: int := 1000
  const GOING_AWAY: int := 1001

  datatype ReadyState = Connecting | Open | Closing | Closed

  /** The numeric `readyState` of the `ws` library. */
  function ReadyStateCode(s: ReadyState): (r: nat)
    ensures r <= 3
    ensures r == 1 <==> s == Open
  {
    match s
    case Connecting => 0
    case Open => 1
    case Closing => 2
    case Closed => 3
  }

  /** `getReadyStateText`: the name of a ready state, "UNKNOWN" for no
      connection or any other number. */
  function ReadyStateText(code: Option<int>): (r: string)
    ensures r == "UNKNOWN" <==> !(code.Some? && 0 <= code.value <= 3)
    ensures forall s: ReadyState :: code == Some(ReadyStateCode(s) as int) ==> r == ReadyStateName(s)
  {
    match code
    case Some(0) => "CONNECTING"
    case Some(1) => "OPEN"
    case Some(2) => "CLOSING"
    case Some(3) => "CLOSED"
    case _ => "UNKNOWN"
  }

  function ReadyStateName(s: ReadyState): string {
    match s
    case Connecting => "CONNECTING"
    case Open => "OPEN"
    case Closing => "CLOSING"
    case Closed => "CLOSED"
  }

  datatype Socket = Socket(id: nat, state: ReadyState)

  /** Why a waiter was rejected, with what its error message names: the
      connection, the request, and its place (from 0) among the `total`
      requests rejected together. */
  datatype Reason =
    | ConnectionLost(connection: string, index: nat, total: nat)
    | HeartbeatTimedOut(connection: string, requestId: string, index: nat, total: nat)
    | CaptureTimedOut(connection: string)
    | AuthTimedOut
    | ExtensionError(error: Json)

  /** The two ways every pending capture is rejected at once. */
  datatype Loss = Lost | HeartbeatFailed

  function LossReason(loss: Loss, connection: string, requestId: string, index: nat, total: nat): Reason {
    match loss
    case Lost => ConnectionLost(connection, index, total)
    case HeartbeatFailed => HeartbeatTimedOut(connection, requestId, index, total)
  }

  datatype Settlement = Resolved(waiter: nat, value: Json) | Rejected(waiter: nat, reason: Reason)

  datatype Outbound = CloseSocket(socket: nat, code: int, reason: string) | SendJson(socket: nat, message: Json)

  datatype Effects = Effects(settled: seq<Settlement>, sent: seq<Outbound>)

  const NO_EFFECTS := Effects([], [])

  /** The connector's state as a value. `pending` is the module-level
      `screenshotCallbacks` map (request id to waiter, in insertion order);
      `authWaiters` are the one-off auth-token listeners, as (socket, waiter)
      pairs in registration order; `nextRequest` numbers capture requests. */
  datatype Conn = Conn(
    active: Option<Socket>,
    connectionId: string,
    lastHeartbeatTime: int,
    monitoring: bool,
    pending: seq<(string, nat)>,
    authWaiters: seq<(nat, nat)>,
    nextRequest: nat)

  const INITIAL: Conn := Conn(None, "", 0, false, [], [], 0)

  /** A request id handed out before request number `n`. */
  predicate IssuedBefore(id: string, n: nat) {
    match Text.ParseInt(id)
    case Some(k) => 0 <= k < n
    case None => false
  }

  /** Request ids are distinct, the monitor only runs with a connection,
      nothing waits and no connection id is kept without a connection, a
      connection always has an id, and every pending request id was issued
      before the next one. */
  predicate ValidConn(c: Conn) {
    && Ordered.DistinctKeys(c.pending)
    && (c.monitoring ==> c.active.Some?)
    && (c.active.None? ==> c.pending == [] && c.connectionId == "")
    && (c.active.Some? ==> c.connectionId != "")
    && (forall i :: 0 <= i < |c.pending| ==> IssuedBefore(c.pending[i].0, c.nextRequest))
  }

  lemma InitialValid()
    ensures ValidConn(INITIAL)
  {
  }

  // ------------------------------------------------- connection lifecycle

  /** The rejections of the pending requests, oldest first, each naming its
      own request and its place among `total`. */
  function RejectAll(pending: seq<(string, nat)>, loss: Loss, connection: string, total: nat): (r: seq<Settlement>)
    ensures |r| == |pending|
    ensures forall i :: 0 <= i < |r| ==>
      r[i] == Rejected(pending[i].1, LossReason(loss, connection, pending[i].0, i, total))
    decreases |pending|
  {
    if pending == [] then []
    else
      var n := |pending| - 1;
      RejectAll(pending[..n], loss, connection, total) + [Rejected(pending[n].1, LossReason(loss, connection, pending[n].0, n, total))]
  }

  /** `this.connectionId || "unknown"`. */
  function ConnectionInfo(connectionId: string): string {
    if connectionId == "" then "unknown" else connectionId
  }

  /** `handleConnectionClose`: forget the connection, stop the monitor,
      reject every pending capture once, in order, and clear the id. Auth
      listeners stay until their own timeouts. */
  function Disconnected(c: Conn): (r: (Conn, seq<Settlement>))
    ensures r.0.active.None? && !r.0.monitoring && r.0.pending == [] && r.0.connectionId == ""
    ensures r.0.authWaiters == c.authWaiters && r.0.nextRequest == c.nextRequest
    ensures |r.1| == |c.pending|
    ensures forall i :: 0 <= i < |c.pending| ==>
      r.1[i] == Rejected(c.pending[i].1, ConnectionLost(ConnectionInfo(c.connectionId), i, |c.pending|))
    ensures ValidConn(r.0)
  {
    (c.(active := None, monitoring := false, pending := [], connectionId := ""),
     RejectAll(c.pending, Lost, ConnectionInfo(c.connectionId), |c.pending|))
  }

  /** The `connection` handler: a new id, the previous connection closed
      normally, the new socket open and active, the heartbeat clock reset and
      the monitor (re)started. Pending requests survive the switch. */
  function Attached(c: Conn, sock: nat, now: nat, random: string): (r: (Conn, seq<Outbound>))
    ensures r.0.active == Some(Socket(sock, Open)) && r.0.monitoring && r.0.lastHeartbeatTime == now
    ensures r.0.pending == c.pending && r.0.authWaiters == c.authWaiters && r.0.nextRequest == c.nextRequest
    ensures Text.StartsWith(r.0.connectionId, "conn_")
    ensures c.active.Some? ==> r.1 == [CloseSocket(c.active.value.id, NORMAL_CLOSURE, "New connection established")]
    ensures c.active.None? ==> r.1 == []
    ensures ValidConn(c) ==> ValidConn(r.0)
  {
    var id := "conn_" + Text.NatToString(now) + "_" + random;
    assert id[..5] == "conn_";
    var closing := if c.active.Some? then [CloseSocket(c.active.value.id, NORMAL_CLOSURE, "New connection established")] else [];
    (c.(active := Some(Socket(sock, Open)), connectionId := id, lastHeartbeatTime := now, monitoring := true), closing)
  }

  /** The `close` handler of socket `sock`: only the active socket's close
      counts; a superseded socket closing changes nothing. */
  function SocketClosed(c: Conn, sock: nat): (r: (Conn, seq<Settlement>))
    ensures (c.active.Some? && c.active.value.id == sock) ==> r == Disconnected(c)
    ensures !(c.active.Some? && c.active.value.id == sock) ==> r == (c, [])
  {
    if c.active.Some? && c.active.value.id == sock then Disconnected(c) else (c, [])
  }

  /** The socket library moving `sock` to another ready state. */
  function StateChanged(c: Conn, sock: nat, st: ReadyState): (r: Conn)
    ensures (c.active.Some? && c.active.value.id == sock) ==> r.active == Some(Socket(sock, st))
    ensures r.(active := c.active) == c
    ensures ValidConn(c) ==> ValidConn(r)
  {
    if c.active.Some? && c.active.value.id == sock then c.(active := Some(Socket(sock, st))) else c
  }

  /** A connection whose socket is a different one from `sock` is kept, and
      the old socket's close event, arriving later, is ignored. */
  lemma SupersededCloseIgnored(c: Conn, previous: nat, sock: nat, now: nat, random: string)
    requires c.active == Some(Socket(previous, Open)) && previous != sock
    ensures var a := Attached(c, sock, now, random);
      && a.1 == [CloseSocket(previous, NORMAL_CLOSURE, "New connection established")]
      && SocketClosed(a.0, previous) == (a.0, [])
      && SocketClosed(a.0, sock).0.active.None?
  {
  }

  function HeartbeatMessage(connectionId: string, now: nat): Json {
    JObj([("type", JStr("heartbeat")), ("connectionId", JStr(connectionId)), ("timestamp", JNum(now))])
  }

  /** One firing of the heartbeat interval at time `now`; `sendFails` says
      whether `send` throws. */
  function HeartbeatTick(c: Conn, now: nat, sendFails: bool): (r: (Conn, Effects))
    // no interval, no tick
    ensures !c.monitoring ==> r == (c, NO_EFFECTS)
    // no open connection: the monitor stops and nothing else happens
    ensures c.monitoring && (c.active.None? || c.active.value.state != Open) ==>
      r == (c.(monitoring := false), NO_EFFECTS)
    // silent for longer than the timeout: every pending capture rejected
    // once, the socket closed as going away, the connection forgotten
    ensures c.monitoring && c.active.Some? && c.active.value.state == Open && now - c.lastHeartbeatTime > HEARTBEAT_TIMEOUT ==>
      && r.0 == Disconnected(c).0
      && |r.1.settled| == |c.pending|
      && (forall i :: 0 <= i < |c.pending| ==>
            r.1.settled[i] == Rejected(c.pending[i].1, HeartbeatTimedOut(c.connectionId, c.pending[i].0, i, |c.pending|)))
      && r.1.sent == [CloseSocket(c.active.value.id, GOING_AWAY, "Heartbeat timeout")]
    // otherwise one heartbeat is sent and nothing changes, unless sending
    // throws, which counts as the connection closing
    ensures c.monitoring && c.active.Some? && c.active.value.state == Open && now - c.lastHeartbeatTime <= HEARTBEAT_TIMEOUT ==>
      && (!sendFails ==> r == (c, Effects([], [SendJson(c.active.value.id, HeartbeatMessage(c.connectionId, now))])))
      && (sendFails ==> r == (Disconnected(c).0, Effects(Disconnected(c).1, [])))
    ensures ValidConn(c) ==> ValidConn(r.0)
  {
    if !c.monitoring then (c, NO_EFFECTS)
    else if c.active.None? || c.active.value.state != Open then (c.(monitoring := false), NO_EFFECTS)
    else if now - c.lastHeartbeatTime > HEARTBEAT_TIMEOUT then
      var sock := c.active.value.id;
      var rejected := RejectAll(c.pending, HeartbeatFailed, c.connectionId, |c.pending|);
      var d := Disconnected(c.(pending := []));
      (d.0, Effects(rejected + d.1, [CloseSocket(sock, GOING_AWAY, "Heartbeat timeout")]))
    else if sendFails then
      var d := Disconnected(c);
      (d.0, Effects(d.1, []))
    else (c, Effects([], [SendJson(c.active.value.id, HeartbeatMessage(c.connectionId, now))]))
  }

  /** `hasActiveConnection`: a connection whose socket is open. */
  predicate HasActiveConnection(c: Conn) {
    c.active.Some? && c.active.value.state == Open
  }

  /** The `healthy` flag of `/connection-health`. */
  predicate Healthy(c: Conn, now: int) {
    HasActiveConnection(c) && now - c.lastHeartbeatTime < HEARTBEAT_TIMEOUT
  }

  /** A heartbeat tick leaves a healthy connection in place, and an open
      connection is always closed by the first tick more than the timeout
      after its last heartbeat. */
  lemma HealthAndTicks(c: Conn, now: nat)
    requires ValidConn(c) && c.monitoring
    ensures Healthy(c, now) ==> HeartbeatTick(c, now, false).0 == c
    ensures HasActiveConnection(c) && now - c.lastHeartbeatTime > HEARTBEAT_TIMEOUT ==>
      !HasActiveConnection(HeartbeatTick(c, now, false).0) && HeartbeatTick(c, now, false).0.pending == []
  {
  }

  /** `getConnectionStatus` together with the fields of
      `/connection-health` that come from the connector. */
  datatype Health = Health(
    connected: bool,
    readyState: Option<int>,
    readyStateText: string,
    lastHeartbeat: int,
    timeSinceLastHeartbeat: int,
    connectionId: string,
    healthy: bool,
    pendingScreenshots: nat)

  /** A healthy report always names an open connection heard from within
      the timeout; the ready state text is "UNKNOWN" exactly when there is no
      connection. */
  function ConnectionHealth(c: Conn, now: int): (r: Health)
    ensures r.healthy ==> r.connected && r.readyStateText == "OPEN" && r.timeSinceLastHeartbeat < HEARTBEAT_TIMEOUT
    ensures r.readyStateText == "UNKNOWN" <==> !r.connected
    ensures r.pendingScreenshots == |c.pending|
  {
    var code := if c.active.Some? then Some(ReadyStateCode(c.active.value.state) as int) else None;
    Health(c.active.Some?, code, ReadyStateText(code), c.lastHeartbeatTime, now - c.lastHeartbeatTime,
           c.connectionId, Healthy(c, now), |c.pending|)
  }

  // ------------------------------------------------------------ messages

  predicate TypeIs(msg: Json, t: string) {
    IsString(Field(msg, "type"), t)
  }

  /** The reply's `requestId`, when it is a non-empty string naming a
      pending request (`data.requestId && map.has(data.requestId)`). */
  function MatchedRequest(pending: seq<(string, nat)>, msg: Json): (r: Option<string>)
    ensures r.Some? ==> r.value != "" && Ordered.HasKey(pending, r.value) && Field(msg, "requestId") == Some(JStr(r.value))
    ensures forall id :: Field(msg, "requestId") == Some(JStr(id)) && id != "" && Ordered.HasKey(pending, id) ==> r == Some(id)
  {
    match Field(msg, "requestId")
    case Some(JStr(id)) => if id != "" && Ordered.HasKey(pending, id) then Some(id) else None
    case _ => None
  }

  /** The request a screenshot reply settles: the one it names, or else the
      oldest pending one, or none when nothing is pending. */
  function ReplyTarget(pending: seq<(string, nat)>, msg: Json): (r: Option<string>)
    ensures r.Some? ==> Ordered.HasKey(pending, r.value)
    ensures r.None? <==> pending == []
    ensures MatchedRequest(pending, msg).Some? ==> r == MatchedRequest(pending, msg)
    ensures MatchedRequest(pending, msg).None? && pending != [] ==> r == Some(pending[0].0)
  {
    match MatchedRequest(pending, msg)
    case Some(id) => Some(id)
    case None => if pending == [] then None else Some(pending[0].0)
  }

  /** What `resolve` receives for a screenshot reply. */
  function ShotOf(msg: Json): Json {
    LogStore.Obj([("data", Field(msg, "data")), ("path", Field(msg, "path")), ("autoPaste", Field(msg, "autoPaste"))])
  }

  /** `data.error || "Screenshot capture failed"`. */
  function ErrorOf(msg: Json): Json {
    var e := Field(msg, "error");
    if Present(e) then e.value else JStr("Screenshot capture failed")
  }

  function ReplyOutcome(w: nat, msg: Json, ok: bool): Settlement {
    if ok then Resolved(w, ShotOf(msg)) else Rejected(w, ExtensionError(ErrorOf(msg)))
  }

  /** A screenshot reply settles the waiter of its target and deletes only
      that entry. */
  function SettleReply(pending: seq<(string, nat)>, msg: Json, ok: bool): (r: (seq<(string, nat)>, seq<Settlement>))
  {
    match ReplyTarget(pending, msg)
    case None => (pending, [])
    case Some(id) =>
      var w := Ordered.Get(pending, id).value;
      (Ordered.Remove(pending, id), [ReplyOutcome(w, msg, ok)])
  }

  /** A screenshot reply settles at most one request: with nothing pending
      it is dropped; otherwise the request it names, or the oldest one, is
      settled with that request's own waiter, its entry is removed and every
      other entry keeps its waiter. */
  lemma {:induction false} ReplySettlesOne(pending: seq<(string, nat)>, msg: Json, ok: bool)
    requires Ordered.DistinctKeys(pending)
    ensures var r := SettleReply(pending, msg, ok);
      && (pending == [] ==> r == (pending, []))
      && (r.1 == [] <==> pending == [])
      && (pending != [] ==>
            var id := ReplyTarget(pending, msg).value;
            && (MatchedRequest(pending, msg).Some? ==> id == MatchedRequest(pending, msg).value)
            && (MatchedRequest(pending, msg).None? ==> id == pending[0].0)
            && r.1 == [ReplyOutcome(Ordered.Get(pending, id).value, msg, ok)]
            && |r.0| == |pending| - 1
            && !Ordered.HasKey(r.0, id)
            && Ordered.DistinctKeys(r.0)
            && forall k :: k != id ==> Ordered.Get(r.0, k) == Ordered.Get(pending, k))
  {
    if pending != [] {
      var id := ReplyTarget(pending, msg).value;
      Ordered.RemoveGet(pending, id);
      Ordered.RemoveDistinct(pending, id);
    }
  }

  /** What a message reports about the current page to the log store. */
  datatype PageReport = PageReport(url: Json, tabId: Option<Json>)

  /** The log store after a page report: the URL is taken, and the tab id
      when it is truthy. */
  function PageReported(s: LogStore.Store, p: PageReport): LogStore.Store {
    s.(currentUrl := Some(p.url), currentTabId := if Present(p.tabId) then p.tabId else s.currentTabId)
  }

  /** The `message` handler every connection registers. */
  function MainHandler(c: Conn, msg: Json, now: nat): (r: (Conn, seq<Settlement>, Option<PageReport>))
  {
    if TypeIs(msg, "heartbeat-response") then (c.(lastHeartbeatTime := now), [], None)
    else
      var url := Field(msg, "url");
      var page :=
        if (TypeIs(msg, "current-url-response") || TypeIs(msg, "page-navigated")) && Present(url)
        then Some(PageReport(url.value, Field(msg, "tabId")))
        else None;
      if TypeIs(msg, "screenshot-data") && Present(Field(msg, "data")) then
        var s := SettleReply(c.pending, msg, true);
        (c.(pending := s.0), s.1, page)
      else if TypeIs(msg, "screenshot-error") then
        var s := SettleReply(c.pending, msg, false);
        (c.(pending := s.0), s.1, page)
      else (c, [], page)
  }

  /** The waiters listening on `sock`, in registration order. */
  function OnSocket(waiters: seq<(nat, nat)>, sock: nat): (r: seq<nat>)
    ensures forall w :: w in r <==> (sock, w) in waiters
    decreases |waiters|
  {
    if waiters == [] then []
    else
      var init := waiters[..|waiters| - 1];
      var last := waiters[|waiters| - 1];
      assert waiters == init + [last];
      var rest := OnSocket(init, sock);
      if last.0 == sock then rest + [last.1] else rest
  }

  /** The listeners on other sockets, in registration order. */
  function OffSocket(waiters: seq<(nat, nat)>, sock: nat): (r: seq<(nat, nat)>)
    ensures forall x :: x in r <==> x in waiters && x.0 != sock
    decreases |waiters|
  {
    if waiters == [] then []
    else
      var init := waiters[..|waiters| - 1];
      var last := waiters[|waiters| - 1];
      assert waiters == init + [last];
      var rest := OffSocket(init, sock);
      if last.0 != sock then rest + [last] else rest
  }

  /** How one auth listener settles on a token response. */
  function TokenOutcome(w: nat, msg: Json): Settlement {
    var e := Field(msg, "error");
    if Present(e) then Rejected(w, ExtensionError(e.value)) else Resolved(w, msg)
  }

  /** The settlements of the listeners on `sock`, in registration order. */
  function TokenOutcomes(waiters: seq<(nat, nat)>, sock: nat, msg: Json): (r: seq<Settlement>)
    ensures var on := OnSocket(waiters, sock);
      |r| == |on| && forall i :: 0 <= i < |on| ==> r[i] == TokenOutcome(on[i], msg)
    decreases |waiters|
  {
    if waiters == [] then []
    else
      var init := waiters[..|waiters| - 1];
      var last := waiters[|waiters| - 1];
      var rest := TokenOutcomes(init, sock, msg);
      if last.0 == sock then rest + [TokenOutcome(last.1, msg)] else rest
  }

  /** Every auth listener on `sock` hears a `RETRIEVE_AUTH_TOKEN_RESPONSE`:
      all of them settle, in registration order, and are removed. */
  function AuthResponse(c: Conn, sock: nat, msg: Json): (r: (Conn, seq<Settlement>))
    ensures r.0.(authWaiters := c.authWaiters) == c
    ensures !TypeIs(msg, "RETRIEVE_AUTH_TOKEN_RESPONSE") ==> r == (c, [])
    ensures TypeIs(msg, "RETRIEVE_AUTH_TOKEN_RESPONSE") ==>
      var on := OnSocket(c.authWaiters, sock);
      && |r.1| == |on|
      && (forall i :: 0 <= i < |on| ==> r.1[i] == TokenOutcome(on[i], msg))
      && (forall x :: x in r.0.authWaiters <==> x in c.authWaiters && x.0 != sock)
  {
    if TypeIs(msg, "RETRIEVE_AUTH_TOKEN_RESPONSE") then
      (c.(authWaiters := OffSocket(c.authWaiters, sock)), TokenOutcomes(c.authWaiters, sock, msg))
    else (c, [])
  }

  /** One message arriving on `sock`: `None` is text that does not parse,
      which every handler ignores. The connection's own handler runs first,
      then the auth listeners on that socket. */
  function MessageReceived(c: Conn, sock: nat, msg: Option<Json>, now: nat): (r: (Conn, seq<Settlement>, Option<PageReport>))
    ensures msg.None? ==> r == (c, [], None)
    ensures ValidConn(c) ==> ValidConn(r.0)
    ensures r.0.active == c.active && r.0.connectionId == c.connectionId && r.0.nextRequest == c.nextRequest
  {
    match msg
    case None => (c, [], None)
    case Some(m) =>
      var main := MainHandler(c, m, now);
      var auth := AuthResponse(main.0, sock, m);
      MainHandlerValid(c, m, now);
      (auth.0, main.1 + auth.1, main.2)
  }

  lemma MainHandlerValid(c: Conn, msg: Json, now: nat)
    ensures var r := MainHandler(c, msg, now).0;
      && r.active == c.active && r.connectionId == c.connectionId && r.nextRequest == c.nextRequest
      && r.monitoring == c.monitoring && r.authWaiters == c.authWaiters
      && (ValidConn(c) ==> ValidConn(r))
  {
    if ValidConn(c) && !TypeIs(msg, "heartbeat-response") {
      if (TypeIs(msg, "screenshot-data") && Present(Field(msg, "data"))) || TypeIs(msg, "screenshot-error") {
        var ok := TypeIs(msg, "screenshot-data") && Present(Field(msg, "data"));
        ReplySettlesOne(c.pending, msg, ok);
        var r := SettleReply(c.pending, msg, ok).0;
        forall i | 0 <= i < |r| ensures IssuedBefore(r[i].0, c.nextRequest) {
          RemoveKeepsEntry(c.pending, ReplyTarget(c.pending, msg).value, i);
        }
      }
    }
  }

  /** An entry left after a removal was an entry before it. */
  lemma {:induction false} RemoveKeepsEntry(m: seq<(string, nat)>, k: string, i: nat)
    requires i < |Ordered.Remove(m, k)|
    ensures Ordered.Remove(m, k)[i] in m
    decreases |m|
  {
    if m != [] {
      if m[0].0 == k {
        RemoveKeepsEntry(m[1..], k, i);
      } else if i > 0 {
        RemoveKeepsEntry(m[1..], k, i - 1);
      }
    }
  }

  /** A heartbeat response only refreshes the heartbeat clock. */
  lemma HeartbeatResponseOnlyRefreshes(c: Conn, sock: nat, msg: Json, now: nat)
    requires TypeIs(msg, "heartbeat-response")
    ensures MessageReceived(c, sock, Some(msg), now) == (c.(lastHeartbeatTime := now), [], None)
  {
    assert !TypeIs(msg, "RETRIEVE_AUTH_TOKEN_RESPONSE");
    var main := MainHandler(c, msg, now);
    assert main == (c.(lastHeartbeatTime := now), [], None);
    var auth := AuthResponse(main.0, sock, msg);
    assert auth == (main.0, []);
    assert main.1 + auth.1 == [];
    assert MessageReceived(c, sock, Some(msg), now) == (auth.0, main.1 + auth.1, main.2);
  }

  // ------------------------------------------------------------ captures

  function TakeScreenshotMessage(requestId: string): Json {
    JObj([("type", JStr("take-screenshot")), ("requestId", JStr(requestId))])
  }

  datatype CaptureStart = NotConnected | Requested(requestId: string, sent: Outbound)

  /** The start of `captureScreenshot` as written: the request id is the
      clock reading, and `map.set` overwrites a pending request with the
      same id. */
  function CaptureAsWritten(c: Conn, now: nat, waiter: nat): (r: (Conn, CaptureStart))
    ensures c.active.None? ==> r == (c, NotConnected)
    ensures c.active.Some? ==> r.1 == Requested(Text.NatToString(now), SendJson(c.active.value.id, TakeScreenshotMessage(Text.NatToString(now))))
  {
    if c.active.None? then (c, NotConnected)
    else
      var id := Text.NatToString(now);
      (c.(pending := Ordered.Put(c.pending, id, waiter)), Requested(id, SendJson(c.active.value.id, TakeScreenshotMessage(id))))
  }

  /** The start of `captureScreenshot` with request ids that cannot repeat:
      the id is the request's sequence number. */
  function CaptureRequested(c: Conn, waiter: nat): (r: (Conn, CaptureStart))
    ensures c.active.None? ==> r == (c, NotConnected)
    ensures c.active.Some? ==> r.1 == Requested(Text.NatToString(c.nextRequest), SendJson(c.active.value.id, TakeScreenshotMessage(Text.NatToString(c.nextRequest))))
  {
    if c.active.None? then (c, NotConnected)
    else
      var id := Text.NatToString(c.nextRequest);
      (c.(pending := Ordered.Put(c.pending, id, waiter), nextRequest := c.nextRequest + 1),
       Requested(id, SendJson(c.active.value.id, TakeScreenshotMessage(id))))
  }

  /** With unique ids a capture only appends its own entry: no pending
      request is overwritten, and the state stays valid. */
  lemma CaptureRequestedAppends(c: Conn, waiter: nat)
    requires ValidConn(c) && c.active.Some?
    ensures var r := CaptureRequested(c, waiter);
      && r.0.pending == c.pending + [(r.1.requestId, waiter)]
      && !Ordered.HasKey(c.pending, r.1.requestId)
      && ValidConn(r.0)
  {
    var id := Text.NatToString(c.nextRequest);
    Text.ParseIntOfNatToString(c.nextRequest);
    forall i | 0 <= i < |c.pending| ensures Ordered.Keys(c.pending)[i] != id {
      assert IssuedBefore(c.pending[i].0, c.nextRequest);
    }
    PutAppends(c.pending, id, waiter);
    Ordered.PutDistinct(c.pending, id, waiter);
  }

  lemma {:induction false} PutAppends(m: seq<(string, nat)>, k: string, v: nat)
    requires !Ordered.HasKey(m, k)
    ensures Ordered.Put(m, k, v) == m + [(k, v)]
    decreases |m|
  {
    if m != [] {
      assert Ordered.Keys(m) == [m[0].0] + Ordered.Keys(m[1..]);
      PutAppends(m[1..], k, v);
    }
  }

  /** The capture timer of request `requestId`, whose promise is `waiter`:
      if the id is still pending, the entry is deleted and the timer's own
      promise is rejected. */
  function CaptureTimeout(c: Conn, requestId: string, waiter: nat): (r: (Conn, seq<Settlement>))
    ensures !Ordered.HasKey(c.pending, requestId) ==> r == (c, [])
    ensures Ordered.HasKey(c.pending, requestId) ==>
      r.1 == [Rejected(waiter, CaptureTimedOut(c.connectionId))] && !Ordered.HasKey(r.0.pending, requestId)
    ensures ValidConn(c) ==> ValidConn(r.0)
  {
    if Ordered.HasKey(c.pending, requestId) then
      Ordered.RemoveGet(c.pending, requestId);
      RemoveValid(c, requestId);
      (c.(pending := Ordered.Remove(c.pending, requestId)), [Rejected(waiter, CaptureTimedOut(c.connectionId))])
    else (c, [])
  }

  lemma RemoveValid(c: Conn, k: string)
    ensures ValidConn(c) ==> ValidConn(c.(pending := Ordered.Remove(c.pending, k)))
  {
    if ValidConn(c) {
      Ordered.RemoveDistinct(c.pending, k);
      var r := Ordered.Remove(c.pending, k);
      forall i | 0 <= i < |r| ensures IssuedBefore(r[i].0, c.nextRequest) {
        RemoveKeepsEntry(c.pending, k, i);
      }
    }
  }

  /** The waiters a settlement list mentions. */
  function SettledWaiters(s: seq<Settlement>): (r: seq<nat>)
    ensures |r| == |s|
    ensures forall i :: 0 <= i < |s| ==> r[i] == s[i].waiter
  {
    seq(|s|, i requires 0 <= i < |s| => s[i].waiter)
  }

  /** As written, two captures started in the same millisecond share an id:
      the second overwrites the first's entry. When both time out, the
      first timer removes the shared entry and rejects the first promise;
      the second timer finds nothing, so the second promise never settles. */
  lemma CollidingCapturesStrandOne(c: Conn, now: nat, w1: nat, w2: nat)
    requires ValidConn(c) && c.active.Some? && w1 != w2
    requires !Ordered.HasKey(c.pending, Text.NatToString(now))
    ensures var id := Text.NatToString(now);
      var c1 := CaptureAsWritten(c, now, w1).0;
      var c2 := CaptureAsWritten(c1, now, w2).0;
      var t1 := CaptureTimeout(c2, id, w1);
      var t2 := CaptureTimeout(t1.0, id, w2);
      && |c2.pending| == |c.pending| + 1
      && Ordered.Get(c2.pending, id) == Some(w2)
      && SettledWaiters(t1.1 + t2.1) == [w1]
      && t2.0.pending == c.pending
  {
    var id := Text.NatToString(now);
    PutAppends(c.pending, id, w1);
    var p1 := c.pending + [(id, w1)];
    assert Ordered.HasKey(p1, id) by {
      assert Ordered.Keys(p1)[|c.pending|] == id;
    }
    PutReplaces(c.pending, id, w1, w2);
    var p2 := c.pending + [(id, w2)];
    Ordered.PutGet(p1, id, w2);
    RemoveLast(c.pending, id, w2);
  }

  lemma {:induction false} PutReplaces(m: seq<(string, nat)>, k: string, v: nat, w: nat)
    requires !Ordered.HasKey(m, k)
    ensures Ordered.Put(m + [(k, v)], k, w) == m + [(k, w)]
    decreases |m|
  {
    if m != [] {
      assert Ordered.Keys(m) == [m[0].0] + Ordered.Keys(m[1..]);
      assert (m + [(k, v)])[1..] == m[1..] + [(k, v)];
      PutReplaces(m[1..], k, v, w);
    } else {
      assert [(k, v)][1..] == [];
    }
  }

  lemma {:induction false} RemoveLast(m: seq<(string, nat)>, k: string, w: nat)
    requires !Ordered.HasKey(m, k)
    ensures Ordered.Remove(m + [(k, w)], k) == m
    ensures Ordered.HasKey(m + [(k, w)], k)
    decreases |m|
  {
    assert Ordered.Keys(m + [(k, w)])[|m|] == k;
    if m != [] {
      assert Ordered.Keys(m) == [m[0].0] + Ordered.Keys(m[1..]);
      assert (m + [(k, w)])[1..] == m[1..] + [(k, w)];
      RemoveLast(m[1..], k, w);
    } else {
      assert [(k, w)][1..] == [];
    }
  }

  /** With unique ids, two captures keep two entries, and each timer
      rejects its own request: both promises settle. */
  lemma CapturesSettleSeparately(c: Conn, w1: nat, w2: nat)
    requires ValidConn(c) && c.active.Some?
    ensures var r1 := CaptureRequested(c, w1);
      var r2 := CaptureRequested(r1.0, w2);
      var t1 := CaptureTimeout(r2.0, r1.1.requestId, w1);
      var t2 := CaptureTimeout(t1.0, r2.1.requestId, w2);
      && r1.1.requestId != r2.1.requestId
      && r2.0.pending == c.pending + [(r1.1.requestId, w1), (r2.1.requestId, w2)]
      && SettledWaiters(t1.1 + t2.1) == [w1, w2]
  {
    var r1 := CaptureRequested(c, w1);
    CaptureRequestedAppends(c, w1);
    CaptureRequestedAppends(r1.0, w2);
    var r2 := CaptureRequested(r1.0, w2);
    var id1 := r1.1.requestId;
    var id2 := r2.1.requestId;
    assert id1 != id2 by {
      if id1 == id2 {
        Text.NatToStringInjective(c.nextRequest, c.nextRequest + 1);
      }
    }
    var p := r2.0.pending;
    assert p == c.pending + [(id1, w1), (id2, w2)];
    KeyAt(p, |c.pending|);
    KeyAt(p, |c.pending| + 1);
    TimeoutsSettleBoth(r2.0, id1, w1, id2, w2);
  }

  lemma KeyAt(m: seq<(string, nat)>, i: nat)
    requires i < |m|
    ensures Ordered.HasKey(m, m[i].0)
  {
    assert Ordered.Keys(m)[i] == m[i].0;
  }

  /** Timers of two different pending ids each reject their own waiter. */
  lemma TimeoutsSettleBoth(d: Conn, id1: string, w1: nat, id2: string, w2: nat)
    requires id1 != id2 && Ordered.HasKey(d.pending, id1) && Ordered.HasKey(d.pending, id2)
    ensures var t1 := CaptureTimeout(d, id1, w1);
      var t2 := CaptureTimeout(t1.0, id2, w2);
      SettledWaiters(t1.1 + t2.1) == [w1, w2]
  {
    Ordered.RemoveGet(d.pending, id1);
    var t1 := CaptureTimeout(d, id1, w1);
    assert Ordered.Get(t1.0.pending, id2) == Ordered.Get(d.pending, id2);
    var t2 := CaptureTimeout(t1.0, id2, w2);
    WaitersOfTwo(t1.1, t2.1, w1, w2, d.connectionId, t1.0.connectionId);
  }

  lemma WaitersOfTwo(a: seq<Settlement>, b: seq<Settlement>, w1: nat, w2: nat, c1: string, c2: string)
    requires a == [Rejected(w1, CaptureTimedOut(c1))] && b == [Rejected(w2, CaptureTimedOut(c2))]
    ensures SettledWaiters(a + b) == [w1, w2]
  {
    var s := SettledWaiters(a + b);
    assert s[0] == w1 && s[1] == w2;
  }

  // ------------------------------------------------------------ auth tokens

  const STORAGE_TYPES: seq<string> := ["cookie", "localStorage", "sessionStorage"]

  /** `['cookie', 'localStorage', 'sessionStorage'].includes(storageType)`. */
  predicate ValidStorageType(o: Option<Json>) {
    o.Some? && o.value.JStr? && o.value.s in STORAGE_TYPES
  }

  const MISSING_TOKEN_PARAMS: LogStore.Reply :=
    LogStore.Reply(400, JObj([("error", JStr("Missing required parameters. Please provide origin, storageType, and tokenKey."))]))
  const MISSING_API_OBJECTS: LogStore.Reply :=
    LogStore.Reply(400, JObj([("error", JStr("Missing required parameters. Please provide authConfig and apiCall objects."))]))
  const MISSING_API_PARAMS: LogStore.Reply :=
    LogStore.Reply(400, JObj([("error", JStr("Missing required parameters in authConfig or apiCall."))]))
  const INVALID_STORAGE: LogStore.Reply :=
    LogStore.Reply(400, JObj([("error", JStr("Invalid storageType. Must be 'cookie', 'localStorage', or 'sessionStorage'."))]))
  const NO_BROWSER: LogStore.Reply :=
    LogStore.Reply(503, JObj([("error", JStr("No active browser connection available"))]))

  /** The checks `authTokenProxy` makes before asking the extension, in
      order; None means the request goes ahead. */
  function CheckTokenRequest(body: Json, connected: bool): (r: Option<LogStore.Reply>)
    ensures r.None? <==>
      (Present(Field(body, "origin")) && ValidStorageType(Field(body, "storageType")) && Present(Field(body, "tokenKey")) && connected)
    ensures r.Some? ==> r.value.status == 400 || r == Some(NO_BROWSER)
  {
    if !Present(Field(body, "origin")) || !Present(Field(body, "storageType")) || !Present(Field(body, "tokenKey")) then
      Some(MISSING_TOKEN_PARAMS)
    else if !ValidStorageType(Field(body, "storageType")) then Some(INVALID_STORAGE)
    else if !connected then Some(NO_BROWSER)
    else None
  }

  /** The checks `authenticatedApiCall` makes before asking the extension. */
  function CheckApiCall(body: Json, connected: bool): (r: Option<LogStore.Reply>)
    ensures r.None? <==>
      var auth := Field(body, "authConfig");
      var call := Field(body, "apiCall");
      && Present(auth) && Present(call)
      && Present(Field(auth.value, "origin")) && ValidStorageType(Field(auth.value, "storageType"))
      && Present(Field(auth.value, "tokenKey"))
      && Present(Field(call.value, "baseUrl")) && Present(Field(call.value, "endpoint"))
      && connected
    ensures r.Some? ==> r.value.status == 400 || r == Some(NO_BROWSER)
  {
    var auth := Field(body, "authConfig");
    var call := Field(body, "apiCall");
    if !Present(auth) || !Present(call) then Some(MISSING_API_OBJECTS)
    else if !Present(Field(auth.value, "origin")) || !Present(Field(auth.value, "storageType"))
         || !Present(Field(auth.value, "tokenKey"))
         || !Present(Field(call.value, "baseUrl")) || !Present(Field(call.value, "endpoint")) then
      Some(MISSING_API_PARAMS)
    else if !ValidStorageType(Field(auth.value, "storageType")) then Some(INVALID_STORAGE)
    else if !connected then Some(NO_BROWSER)
    else None
  }

  /** The request sent to the extension for a token. */
  function TokenRequestMessage(params: Json): Json {
    LogStore.Obj([("type", Some(JStr("RETRIEVE_AUTH_TOKEN"))), ("origin", Field(params, "origin")),
                  ("storageType", Field(params, "storageType")), ("tokenKey", Field(params, "tokenKey"))])
  }

  /** A listener for `waiter` is placed on the active socket and the
      request is sent there. */
  function TokenRequested(c: Conn, waiter: nat, params: Json): (r: (Conn, Outbound))
    requires c.active.Some?
    ensures r.0.authWaiters == c.authWaiters + [(c.active.value.id, waiter)]
    ensures r.0.(authWaiters := c.authWaiters) == c
    ensures r.1 == SendJson(c.active.value.id, TokenRequestMessage(params))
  {
    (c.(authWaiters := c.authWaiters + [(c.active.value.id, waiter)]), SendJson(c.active.value.id, TokenRequestMessage(params)))
  }

  /** The waiters other than `waiter`, in order. */
  function Without(waiters: seq<(nat, nat)>, waiter: nat): (r: seq<(nat, nat)>)
    ensures forall x :: x in r <==> x in waiters && x.1 != waiter
    decreases |waiters|
  {
    if waiters == [] then []
    else
      var rest := Without(waiters[1..], waiter);
      assert forall x :: x in waiters <==> x == waiters[0] || x in waiters[1..];
      if waiters[0].1 != waiter then [waiters[0]] + rest else rest
  }

  predicate Waiting(c: Conn, waiter: nat) {
    exists x :: x in c.authWaiters && x.1 == waiter
  }

  /** The ten-second timer of an auth request: a promise still waiting is
      rejected and its listener dropped; a settled one is left alone. */
  function AuthTimeout(c: Conn, waiter: nat): (r: (Conn, seq<Settlement>))
    ensures Waiting(c, waiter) ==> r.1 == [Rejected(waiter, AuthTimedOut)]
    ensures !Waiting(c, waiter) ==> r == (c, [])
    ensures !Waiting(r.0, waiter)
    ensures r.0.(authWaiters := c.authWaiters) == c
  {
    if Waiting(c, waiter) then (c.(authWaiters := Without(c.authWaiters, waiter)), [Rejected(waiter, AuthTimedOut)])
    else (c, [])
  }

  /** One token response on a socket settles every auth request waiting on
      that socket, and a later timeout of any of them does nothing. */
  lemma OneResponseSettlesAll(c: Conn, sock: nat, msg: Json, w: nat)
    requires TypeIs(msg, "RETRIEVE_AUTH_TOKEN_RESPONSE")
    requires (sock, w) in c.authWaiters
    requires forall x :: x in c.authWaiters && x.1 == w ==> x.0 == sock
    ensures var r := AuthResponse(c, sock, msg);
      && TokenOutcome(w, msg) in r.1
      && AuthTimeout(r.0, w) == (r.0, [])
  {
    var r := AuthResponse(c, sock, msg);
    var on := OnSocket(c.authWaiters, sock);
    var i :| 0 <= i < |on| && on[i] == w;
    assert r.1[i] == TokenOutcome(w, msg);
  }

  /** The reply of `/auth-token-proxy` once its promise settles. */
  function TokenProxyReply(s: Settlement): (r: LogStore.Reply)
    ensures s.Resolved? ==> r == LogStore.Reply(200, LogStore.Obj([("token", Field(s.value, "token"))]))
    ensures s.Rejected? ==> r == RejectedReply(s.reason)
    ensures s.Rejected? && s.reason.AuthTimedOut? ==>
      r == LogStore.Reply(500, JObj([("error", JStr("Timeout waiting for response from browser extension"))]))
    ensures s.Rejected? && s.reason.ExtensionError? ==>
      r == LogStore.Reply(500, JObj([("error", JStr(ToJsString(s.reason.error)))]))
  {
    match s
    case Resolved(_, v) => LogStore.Reply(200, LogStore.Obj([("token", Field(v, "token"))]))
    case Rejected(_, reason) => RejectedReply(reason)
  }

  /** The `message` of the `Error` a rejection carries; positions are
      counted from 1, and an extension's error value is converted with
      `String`. */
  function ReasonText(reason: Reason): string {
    match reason
    case ConnectionLost(connection, i, n) =>
      "WebSocket connection lost [" + connection + "] - callback " + Text.NatToString(i + 1) + "/" + Text.NatToString(n)
    case HeartbeatTimedOut(connection, id, i, n) =>
      "Connection timeout - heartbeat failed [" + connection + "] - request " + id
        + " (" + Text.NatToString(i + 1) + "/" + Text.NatToString(n) + ")"
    case CaptureTimedOut(connection) =>
      "Screenshot capture timed out - no response from Chrome extension [" + connection + "] after 15 seconds"
    case AuthTimedOut => "Timeout waiting for response from browser extension"
    case ExtensionError(e) => ToJsString(e)
  }

  /** The 500 reply of a handler whose promise was rejected. */
  function RejectedReply(reason: Reason): LogStore.Reply {
    LogStore.Reply(500, JObj([("error", JStr(ReasonText(reason)))]))
  }

  // ------------------------------------------------- authenticated calls

  /** A value in a template literal; `undefined` when absent, and `show`
      for values other than strings. */
  function TemplateText(o: Option<Json>, show: Json -> string): string {
    match o
    case None => "undefined"
    case Some(JStr(s)) => s
    case Some(j) => show(j)
  }

  const BODY_METHODS: seq<string> := ["POST", "PUT", "PATCH"]

  datatype ApiRequest = ApiRequest(url: string, verb: string, headers: seq<(string, Json)>, body: Option<string>)

  /** `${baseUrl}${endpoint}`, followed by `?` and the encoded parameters
      when `queryParams` is truthy and has at least one key. */
  function ApiUrl(apiCall: Json, show: Json -> string, encodeQuery: Json -> string): (r: string)
    ensures var base := TemplateText(Field(apiCall, "baseUrl"), show) + TemplateText(Field(apiCall, "endpoint"), show);
      var query := Field(apiCall, "queryParams");
      && Text.StartsWith(r, base)
      && (Present(query) && |Spread(query.value)| > 0 ==> r == base + "?" + encodeQuery(query.value))
      && (!(Present(query) && |Spread(query.value)| > 0) ==> r == base)
  {
    var base := TemplateText(Field(apiCall, "baseUrl"), show) + TemplateText(Field(apiCall, "endpoint"), show);
    var query := Field(apiCall, "queryParams");
    var r := if Present(query) && |Spread(query.value)| > 0 then base + "?" + encodeQuery(query.value) else base;
    assert r[..|base|] == base;
    r
  }

  /** The default headers, then every own property of `additionalHeaders`
      (an absent one counts as `{}`). */
  function ApiHeaders(token: string, extra: Option<Json>): seq<(string, Json)> {
    Merge([("Content-Type", JStr("application/json")), ("Authorization", JStr("Bearer " + token))],
          if extra.None? then [] else Spread(extra.value))
  }

  /** The caller's headers win: a header the caller sets reads the caller's
      last value for it; otherwise `Authorization` carries the bearer token
      and `Content-Type` is JSON. */
  lemma ApiHeadersSpec(token: string, own: seq<(string, Json)>, h: string)
    ensures var r := ApiHeaders(token, Some(JObj(own)));
      && (!Ordered.HasKey(own, "Authorization") ==> Ordered.Get(r, "Authorization") == Some(JStr("Bearer " + token)))
      && (!Ordered.HasKey(own, "Content-Type") ==> Ordered.Get(r, "Content-Type") == Some(JStr("application/json")))
      && (Ordered.HasKey(own, h) ==> Ordered.Get(r, h) == Some(LastValue(own, h)))
  {
    var defaults := [("Content-Type", JStr("application/json")), ("Authorization", JStr("Bearer " + token))];
    MergeGet(defaults, own, "Authorization");
    MergeGet(defaults, own, "Content-Type");
    MergeGet(defaults, own, h);
  }

  /** The request `authenticatedApiCall` sends once it has the token: the
      URL, the method (GET when absent), the headers, and a body only for
      POST, PUT and PATCH. None is the error of upper-casing a method that is
      not a string, which only happens when there is a body. URL query
      encoding, JSON serialisation and string conversion are parameters. */
  function BuildApiRequest(token: Option<Json>, apiCall: Json, show: Json -> string,
                           encodeQuery: Json -> string, stringify: Json -> string): (r: Option<ApiRequest>)
    ensures var m := Field(apiCall, "method");
      var requestBody := Field(apiCall, "requestBody");
      && (r.None? <==> Present(requestBody) && m.Some? && !m.value.JStr?)
      && (r.Some? ==>
            && r.value.url == ApiUrl(apiCall, show, encodeQuery)
            && r.value.headers == ApiHeaders(TemplateText(token, show), Field(apiCall, "additionalHeaders"))
            && (m.None? ==> r.value.verb == "GET")
            && (m.Some? && m.value.JStr? ==> r.value.verb == m.value.s)
            && (r.value.body.Some? <==> Present(requestBody) && Text.Upper(r.value.verb) in BODY_METHODS)
            && (r.value.body.Some? ==> r.value.body.value == stringify(requestBody.value)))
  {
    var httpMethod := Field(apiCall, "method");
    var verb := if httpMethod.None? then "GET" else TemplateText(httpMethod, show);
    var requestBody := Field(apiCall, "requestBody");
    if Present(requestBody) && !(httpMethod.None? || httpMethod.value.JStr?) then None
    else
      var body := if Present(requestBody) && Text.Upper(verb) in BODY_METHODS then Some(stringify(requestBody.value)) else None;
      Some(ApiRequest(ApiUrl(apiCall, show, encodeQuery), verb,
                      ApiHeaders(TemplateText(token, show), Field(apiCall, "additionalHeaders")), body))
  }

  // ---------------------------------------------------- capture response

  const NO_CONNECTION_REPLY: LogStore.Reply :=
    LogStore.Reply(503, JObj([("error", JStr("Chrome extension not connected"))]))
  const NO_DATA_ERROR: string := "No screenshot data received from Chrome extension"

  /** `returnImageData = true` from the request body: the default applies
      only when the property is absent. */
  function ReturnImageData(body: Json): bool {
    var v := Field(body, "returnImageData");
    v.None? || Truthy(v.value)
  }

  /** A truthy value other than a string: the screenshot service calls a
      string method on it, which throws a `TypeError`. */
  predicate NotAString(o: Option<Json>) {
    Present(o) && !o.value.JStr?
  }

  /** Whether saving throws before anything is written: the image data,
      the extension's folder, the project name or the file name is a
      truthy non-string. */
  predicate SaveThrows(body: Json, shot: Json) {
    || NotAString(Field(shot, "data"))
    || NotAString(Field(shot, "path"))
    || NotAString(Field(body, "projectName"))
    || NotAString(Field(body, "filename"))
  }

  /** The reply of `/capture-screenshot` once its promise settles: a
      rejection, falsy data or a save that throws is a 500 carrying the
      error's message (`typeErrorText` stands for the runtime's `TypeError`
      text); otherwise the screenshot is saved with the request's file and
      project names, the extension's folder as base directory and the
      current page URL, and the saved locations are returned, with the
      image data only when asked for. */
  function CaptureReply(body: Json, outcome: Settlement, currentUrl: Option<Json>, typeErrorText: string,
                        ctx: Screenshot.Context, parse: string -> Option<Screenshot.Url>): (r: LogStore.Reply)
    ensures outcome.Rejected? ==> r == LogStore.Reply(500, JObj([("error", JStr(ReasonText(outcome.reason)))]))
    ensures outcome.Resolved? && !Present(Field(outcome.value, "data")) ==>
      r == LogStore.Reply(500, JObj([("error", JStr(NO_DATA_ERROR))]))
    ensures outcome.Resolved? && Present(Field(outcome.value, "data")) && SaveThrows(body, outcome.value) ==>
      r == LogStore.Reply(500, JObj([("error", JStr(typeErrorText))]))
    ensures r.status == 200 <==>
      outcome.Resolved? && Present(Field(outcome.value, "data")) && !SaveThrows(body, outcome.value)
    ensures r.status == 200 ==> Screenshot.Given(StrField(outcome.value, "data"))
    ensures r.status != 200 ==> r.status == 500
  {
    match outcome
    case Rejected(_, reason) => RejectedReply(reason)
    case Resolved(_, shot) =>
      if !Present(Field(shot, "data")) then LogStore.Reply(500, JObj([("error", JStr(NO_DATA_ERROR))]))
      else if SaveThrows(body, shot) then LogStore.Reply(500, JObj([("error", JStr(typeErrorText))]))
      else
        var returnImageData := ReturnImageData(body);
        var config := Screenshot.ScreenshotConfig(StrField(body, "filename"), returnImageData,
                                                  StrField(body, "projectName"), StrField(shot, "path"));
        var saved := Screenshot.SaveScreenshot(StrField(shot, "data").value, PageUrl(currentUrl), config, ctx, parse);
        LogStore.Reply(200, SavedBody(saved.result, returnImageData))
  }

  /** A successful capture reply names the project directory and URL
      category the screenshot service resolved, and carries the cleaned
      image data exactly when it was asked for and is not empty. */
  lemma CaptureReplySaved(body: Json, outcome: Settlement, currentUrl: Option<Json>, typeErrorText: string,
                          ctx: Screenshot.Context, parse: string -> Option<Screenshot.Url>)
    requires outcome.Resolved? && Screenshot.Given(StrField(outcome.value, "data")) && !SaveThrows(body, outcome.value)
    ensures var r := CaptureReply(body, outcome, currentUrl, typeErrorText, ctx, parse);
      var clean := Screenshot.CleanBase64Data(StrField(outcome.value, "data").value);
      && r.status == 200 && r.body.JObj? && 4 <= |r.body.fields| <= 5
      && r.body.fields[2] == ("projectDirectory", JStr(Screenshot.ResolveProjectDirectory(StrField(body, "projectName"), ctx)))
      && r.body.fields[3] == ("urlCategory", JStr(Screenshot.ResolveUrlCategory(PageUrl(currentUrl), parse)))
      && (|r.body.fields| == 5 <==> ReturnImageData(body) && clean != "")
      && (|r.body.fields| == 5 ==> r.body.fields[4] == ("imageData", JStr(clean)))
  {
    var shot := outcome.value;
    var data := StrField(shot, "data").value;
    var config := Screenshot.ScreenshotConfig(StrField(body, "filename"), ReturnImageData(body),
                                              StrField(body, "projectName"), StrField(shot, "path"));
    var saved := Screenshot.SaveScreenshot(data, PageUrl(currentUrl), config, ctx, parse);
    SavedBodyShape(saved.result, ReturnImageData(body));
  }

  lemma SavedBodyShape(res: Screenshot.ScreenshotResult, returnImageData: bool)
    ensures var b := SavedBody(res, returnImageData);
      && b.JObj? && 4 <= |b.fields| <= 5
      && b.fields[2] == ("projectDirectory", JStr(res.projectDirectory))
      && b.fields[3] == ("urlCategory", JStr(res.urlCategory))
      && (|b.fields| == 5 <==> returnImageData && Screenshot.Given(res.imageData))
      && (|b.fields| == 5 ==> b.fields[4] == ("imageData", JStr(res.imageData.value)))
  {
  }

  /** The page URL handed to the screenshot service: a falsy one counts as
      none, and another non-string is read as a URL through `String`. */
  function PageUrl(currentUrl: Option<Json>): (r: Option<string>)
    ensures !Present(currentUrl) ==> r.None? || r == Some("")
    ensures currentUrl.Some? && currentUrl.value.JStr? ==> r == Some(currentUrl.value.s)
    ensures Present(currentUrl) ==> r == Some(ToJsString(currentUrl.value))
  {
    match currentUrl
    case Some(JStr(u)) => Some(u)
    case Some(v) => if Truthy(v) then Some(ToJsString(v)) else None
    case None => None
  }

  /** The reply body of a saved screenshot: its locations, and the image
      data when asked for and non-empty. */
  function SavedBody(res: Screenshot.ScreenshotResult, returnImageData: bool): Json {
    var image := if returnImageData && Screenshot.Given(res.imageData) then [("imageData", JStr(res.imageData.value))] else [];
    JObj([("filePath", JStr(res.filePath)), ("filename", JStr(res.filename)),
          ("projectDirectory", JStr(res.projectDirectory)), ("urlCategory", JStr(res.urlCategory))] + image)
  }

  // ------------------------------------------------------------ the object

  /** The connector object: the fields of `BrowserConnector` and the
      `screenshotCallbacks` map it shares with the module. */
  class BrowserConnector {
    var active: Option<Socket>
    var connectionId: string
    var lastHeartbeatTime: int
    var monitoring: bool
    var pending: seq<(string, nat)>
    var authWaiters: seq<(nat, nat)>
    var nextRequest: nat

    function State(): Conn
      reads this
    {
      Conn(active, connectionId, lastHeartbeatTime, monitoring, pending, authWaiters, nextRequest)
    }

    ghost predicate Valid()
      reads this
    {
      ValidConn(State())
    }

    constructor()
      ensures Valid() && State() == INITIAL
    {
      active := None;
      connectionId := "";
      lastHeartbeatTime := 0;
      monitoring := false;
      pending := [];
      authWaiters := [];
      nextRequest := 0;
    }

    /** `handleConnectionClose`, rejecting the pending captures one by one
        in insertion order. */
    method HandleConnectionClose() returns (settled: seq<Settlement>)
      modifies this
      ensures Valid()
      ensures (State(), settled) == Disconnected(old(State()))
    {
      active := None;
      monitoring := false;
      settled := [];
      var i := 0;
      while i < |pending|
        invariant 0 <= i <= |pending|
        invariant settled == RejectAll(pending[..i], Lost, ConnectionInfo(connectionId), |pending|)
      {
        assert pending[..i + 1][..i] == pending[..i];
        settled := settled + [Rejected(pending[i].1, ConnectionLost(ConnectionInfo(connectionId), i, |pending|))];
        i := i + 1;
      }
      assert pending[..|pending|] == pending;
      pending := [];
      connectionId := "";
    }

    /** A new extension socket connects. */
    method OnConnection(sock: nat, now: nat, random: string) returns (sent: seq<Outbound>)
      requires Valid()
      modifies this
      ensures Valid()
      ensures (State(), sent) == Attached(old(State()), sock, now, random)
    {
      connectionId := "conn_" + Text.NatToString(now) + "_" + random;
      sent := [];
      if active.Some? {
        sent := [CloseSocket(active.value.id, NORMAL_CLOSURE, "New connection established")];
      }
      active := Some(Socket(sock, Open));
      lastHeartbeatTime := now;
      monitoring := true;
    }

    /** Socket `sock` reports that it closed. */
    method OnClose(sock: nat) returns (settled: seq<Settlement>)
      requires Valid()
      modifies this
      ensures Valid()
      ensures (State(), settled) == SocketClosed(old(State()), sock)
    {
      settled := [];
      if active.Some? && active.value.id == sock {
        settled := HandleConnectionClose();
      }
    }

    /** The socket library moves `sock` to another ready state. */
    method OnReadyState(sock: nat, st: ReadyState)
      requires Valid()
      modifies this
      ensures Valid()
      ensures State() == StateChanged(old(State()), sock, st)
    {
      if active.Some? && active.value.id == sock {
        active := Some(Socket(sock, st));
      }
    }

    /** The heartbeat interval fires at `now`. */
    method OnHeartbeatTick(now: nat, sendFails: bool) returns (effects: Effects)
      requires Valid()
      modifies this
      ensures Valid()
      ensures (State(), effects) == HeartbeatTick(old(State()), now, sendFails)
    {
      effects := NO_EFFECTS;
      if !monitoring {
        return;
      }
      if active.None? || active.value.state != Open {
        monitoring := false;
        return;
      }
      var sock := active.value.id;
      if now - lastHeartbeatTime > HEARTBEAT_TIMEOUT {
        var rejected := RejectAll(pending, HeartbeatFailed, connectionId, |pending|);
        pending := [];
        var lost := HandleConnectionClose();
        effects := Effects(rejected + lost, [CloseSocket(sock, GOING_AWAY, "Heartbeat timeout")]);
      } else if sendFails {
        var lost := HandleConnectionClose();
        effects := Effects(lost, []);
      } else {
        effects := Effects([], [SendJson(sock, HeartbeatMessage(connectionId, now))]);
      }
    }

    /** A screenshot reply settles its target's waiter and removes only that
        entry. */
    method SettleScreenshotReply(msg: Json, ok: bool) returns (settled: seq<Settlement>)
      modifies this
      ensures (pending, settled) == SettleReply(old(pending), msg, ok)
      ensures State() == old(State()).(pending := pending)
    {
      settled := [];
      var target := ReplyTarget(pending, msg);
      if target.Some? {
        var w := Ordered.Get(pending, target.value).value;
        pending := Ordered.Remove(pending, target.value);
        settled := [ReplyOutcome(w, msg, ok)];
      }
    }

    /** The auth listeners on `sock` hear a message, in registration order. */
    method AnswerAuthListeners(sock: nat, msg: Json) returns (settled: seq<Settlement>)
      modifies this
      ensures (State(), settled) == AuthResponse(old(State()), sock, msg)
    {
      settled := [];
      if !TypeIs(msg, "RETRIEVE_AUTH_TOKEN_RESPONSE") {
        return;
      }
      var kept := [];
      var i := 0;
      while i < |authWaiters|
        invariant 0 <= i <= |authWaiters|
        invariant kept == OffSocket(authWaiters[..i], sock)
        invariant settled == TokenOutcomes(authWaiters[..i], sock, msg)
      {
        assert authWaiters[..i + 1][..i] == authWaiters[..i];
        if authWaiters[i].0 == sock {
          settled := settled + [TokenOutcome(authWaiters[i].1, msg)];
        } else {
          kept := kept + [authWaiters[i]];
        }
        i := i + 1;
      }
      assert authWaiters[..|authWaiters|] == authWaiters;
      authWaiters := kept;
    }

    /** A message arrives on `sock`; page reports go to the log store. */
    method OnMessage(sock: nat, msg: Option<Json>, now: nat, store: LogStore.LogStore) returns (settled: seq<Settlement>)
      requires Valid() && store.Valid()
      modifies this, store
      ensures Valid() && store.Valid()
      ensures var r := MessageReceived(old(State()), sock, msg, now);
        && (State(), settled) == (r.0, r.1)
        && (r.2.None? ==> store.State() == old(store.State()))
        && (r.2.Some? ==> store.State() == PageReported(old(store.State()), r.2.value))
    {
      settled := [];
      if msg.None? {
        return;
      }
      ghost var before := State();
      MainHandlerValid(before, msg.value, now);
      settled := RunMainHandler(msg.value, now, store);
      var answered := AnswerAuthListeners(sock, msg.value);
      settled := settled + answered;
    }

    /** The connection's own `message` handler. */
    method RunMainHandler(m: Json, now: nat, store: LogStore.LogStore) returns (settled: seq<Settlement>)
      requires store.Valid()
      modifies this, store
      ensures store.Valid()
      ensures var r := MainHandler(old(State()), m, now);
        && (State(), settled) == (r.0, r.1)
        && (r.2.None? ==> store.State() == old(store.State()))
        && (r.2.Some? ==> store.State() == PageReported(old(store.State()), r.2.value))
    {
      settled := [];
      if TypeIs(m, "heartbeat-response") {
        lastHeartbeatTime := now;
      } else {
        var url := Field(m, "url");
        if (TypeIs(m, "current-url-response") || TypeIs(m, "page-navigated")) && Present(url) {
          store.SetPage(url.value, Field(m, "tabId"));
        }
        if TypeIs(m, "screenshot-data") && Present(Field(m, "data")) {
          settled := SettleScreenshotReply(m, true);
        } else if TypeIs(m, "screenshot-error") {
          settled := SettleScreenshotReply(m, false);
        }
      }
    }

    /** `captureScreenshot` up to sending the request: 503 without a
        connection, otherwise a waiting entry under a fresh request id and a
        `take-screenshot` message on the active socket. */
    method CaptureScreenshot(waiter: nat) returns (r: CaptureStart)
      requires Valid()
      modifies this
      ensures Valid()
      ensures (State(), r) == CaptureRequested(old(State()), waiter)
    {
      if active.None? {
        return NotConnected;
      }
      CaptureRequestedAppends(State(), waiter);
      var requestId := Text.NatToString(nextRequest);
      pending := Ordered.Put(pending, requestId, waiter);
      nextRequest := nextRequest + 1;
      r := Requested(requestId, SendJson(active.value.id, TakeScreenshotMessage(requestId)));
    }

    /** The fifteen-second timer of a capture fires. */
    method OnCaptureTimeout(requestId: string, waiter: nat) returns (settled: seq<Settlement>)
      requires Valid()
      modifies this
      ensures Valid()
      ensures (State(), settled) == CaptureTimeout(old(State()), requestId, waiter)
    {
      settled := [];
      if Ordered.HasKey(pending, requestId) {
        RemoveValid(State(), requestId);
        pending := Ordered.Remove(pending, requestId);
        settled := [Rejected(waiter, CaptureTimedOut(connectionId))];
      }
    }

    /** `authTokenProxy` up to sending the request: the checks, then a
        listener on the active socket and the request sent there. */
    method AuthTokenProxy(body: Json, waiter: nat) returns (refused: Option<LogStore.Reply>, sent: seq<Outbound>)
      requires Valid()
      modifies this
      ensures Valid()
      ensures refused == CheckTokenRequest(body, old(active).Some?)
      ensures refused.Some? ==> State() == old(State()) && sent == []
      ensures refused.None? ==> old(active).Some? && (State(), sent) == (TokenRequested(old(State()), waiter, body).0, [TokenRequested(old(State()), waiter, body).1])
    {
      sent := [];
      refused := CheckTokenRequest(body, active.Some?);
      if refused.None? {
        var out := RequestToken(waiter, body);
        sent := [out];
      }
    }

    /** `authenticatedApiCall` up to sending the token request. */
    method AuthenticatedApiCall(body: Json, waiter: nat) returns (refused: Option<LogStore.Reply>, sent: seq<Outbound>)
      requires Valid()
      modifies this
      ensures Valid()
      ensures refused == CheckApiCall(body, old(active).Some?)
      ensures refused.Some? ==> State() == old(State()) && sent == []
      ensures refused.None? ==>
        var params := Field(body, "authConfig").value;
        old(active).Some? && (State(), sent) == (TokenRequested(old(State()), waiter, params).0, [TokenRequested(old(State()), waiter, params).1])
    {
      sent := [];
      refused := CheckApiCall(body, active.Some?);
      if refused.None? {
        var out := RequestToken(waiter, Field(body, "authConfig").value);
        sent := [out];
      }
    }

    /** A one-off listener for `waiter` on the active socket, and the token
        request sent there. */
    method RequestToken(waiter: nat, params: Json) returns (sent: Outbound)
      requires Valid() && active.Some?
      modifies this
      ensures Valid()
      ensures (State(), sent) == TokenRequested(old(State()), waiter, params)
    {
      var sock := active.value.id;
      authWaiters := authWaiters + [(sock, waiter)];
      sent := SendJson(sock, TokenRequestMessage(params));
    }

    /** The ten-second timer of an auth request fires. */
    method OnAuthTimeout(waiter: nat) returns (settled: seq<Settlement>)
      requires Valid()
      modifies this
      ensures Valid()
      ensures (State(), settled) == AuthTimeout(old(State()), waiter)
    {
      settled := [];
      if Waiting(State(), waiter) {
        authWaiters := Without(authWaiters, waiter);
        settled := [Rejected(waiter, AuthTimedOut)];
      }
    }
  }
}

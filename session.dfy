/** The license session: the `Controller` screen's fields and the web
    socket client that listens for revocations. The two objects refer to each
    other (the client stops the controller's heartbeat), so they share a
    module. Network replies, the MAC lookup and the library parsers are
    inputs; the heartbeat thread is a flag that `HeartbeatTick` advances one
    loop iteration at a time. */
module Session {
  import opened Wire
  import opened ControllerHelpers
  import opened SocketRules

  const SERVER_URL := "http://localhost:8080/api/license"
  const PRODUCT_NAME := "Product 2"
  const WS_SERVER_URL := "ws://localhost:8080"
  const HTTP_OK := 200

  function ActivateRequest(licenseKey: string, deviceId: string): (r: Request)
    ensures r.url == SERVER_URL + "/activate"
    ensures r.body.Keys == {"licenseKey", "deviceId", "productName"}
    ensures r.body["licenseKey"] == licenseKey && r.body["deviceId"] == deviceId
    ensures r.body["productName"] == PRODUCT_NAME
  {
    Request(SERVER_URL + "/activate",
            map["licenseKey" := licenseKey, "deviceId" := deviceId, "productName" := PRODUCT_NAME])
  }

  function DeactivateRequest(licenseKey: string, deviceId: string): (r: Request)
    ensures r.url == SERVER_URL + "/deactivate"
    ensures r.body.Keys == {"licenseKey", "deviceId"}
    ensures r.body["licenseKey"] == licenseKey && r.body["deviceId"] == deviceId
  {
    Request(SERVER_URL + "/deactivate", map["licenseKey" := licenseKey, "deviceId" := deviceId])
  }

  function HeartbeatRequest(licenseKey: string, deviceId: string): (r: Request)
    ensures r.url == SERVER_URL + "/heartbeat"
    ensures r.body.Keys == {"licenseKey", "deviceId"}
    ensures r.body["licenseKey"] == licenseKey && r.body["deviceId"] == deviceId
  {
    Request(SERVER_URL + "/heartbeat", map["licenseKey" := licenseKey, "deviceId" := deviceId])
  }

  /** How a call to the server ended. `Unreachable` is a ConnectException;
      `NoDeviceId` is the exception `getDeviceId` throws when the host has no
      network interface or hardware address. */
  datatype CallResult = Accepted | Rejected(message: string) | Unreachable | NoDeviceId

  /** The result of a reply: status 200 is success, any other status is a
      rejection whose text `ErrorMessage` takes from the body. */
  function Answer(reply: HttpOutcome, parse: Parser): (r: CallResult)
    ensures r == Accepted <==> reply.Response? && reply.status == HTTP_OK
    ensures r == Unreachable <==> reply.ConnectError?
    ensures r.Rejected? ==> r.message == ErrorMessage(reply.body, parse(reply.body))
    ensures !r.NoDeviceId?
  {
    match reply
    case ConnectError => Unreachable
    case Response(status, body) =>
      if status == HTTP_OK then Accepted else Rejected(ErrorMessage(body, parse(body)))
  }

  /** The heartbeat part of the controller: the `isRunning` flag, whether the
      heartbeat thread is alive, and whether it has been interrupted. */
  datatype Heartbeat = Heartbeat(running: bool, alive: bool, interrupted: bool)

  /** A freshly started heartbeat thread. */
  const STARTED := Heartbeat(true, true, false)

  /** `isRunning = false`, and an interrupt for a live thread. */
  function Stopped(h: Heartbeat): (r: Heartbeat)
    ensures !r.running
    ensures r.alive == h.alive
    ensures r.interrupted <==> h.alive
  {
    Heartbeat(false, h.alive, h.alive)
  }

  /** One step of the heartbeat loop: the loop test fails, or one call. */
  datatype Tick = LoopEnded | Beat(result: CallResult)

  /** The loop goes on after a call that got a reply; an exception
      (no device id, no connection) ends it, as does a failed loop test. */
  predicate KeepsBeating(t: Tick): (r: bool)
    ensures r <==> t.Beat? && !t.result.Unreachable? && !t.result.NoDeviceId?
  {
    t.Beat? && (t.result.Accepted? || t.result.Rejected?)
  }

  function AfterTick(h: Heartbeat, t: Tick): (r: Heartbeat)
    ensures r.running == h.running
    ensures r.alive <==> h.alive && KeepsBeating(t)
    ensures KeepsBeating(t) ==> r == h
    ensures !KeepsBeating(t) ==> !r.interrupted
  {
    if KeepsBeating(t) then h else Heartbeat(h.running, false, false)
  }

  lemma StoppedIdempotent(h: Heartbeat)
    ensures Stopped(Stopped(h)) == Stopped(h)
    ensures !Stopped(h).running
  {
  }

  /** A rejected heartbeat neither stops the loop nor touches the flag. */
  lemma RejectedHeartbeatContinues(h: Heartbeat, message: string)
    ensures KeepsBeating(Beat(Rejected(message)))
    ensures AfterTick(h, Beat(Rejected(message))) == h
  {
  }

  /** An exception from the heartbeat call ends the thread and leaves the
      flag as it was. */
  lemma FailedHeartbeatEndsLoop(h: Heartbeat, r: CallResult)
    requires r == Unreachable || r == NoDeviceId
    ensures !AfterTick(h, Beat(r)).alive
    ensures AfterTick(h, Beat(r)).running == h.running
  {
  }

  class Controller {
    var license: string
    var isRunning: bool
    var heartbeatAlive: bool
    var heartbeatInterrupted: bool
    var wsClient: LicenseWebSocketClient?

    /** An interrupted thread is alive and has been told to stop; a client
        this controller made points back to it. */
    ghost predicate Valid()
      reads this
    {
      (heartbeatInterrupted ==> heartbeatAlive && !isRunning) &&
      (wsClient != null ==> wsClient.controller == this)
    }

    function HeartbeatState(): Heartbeat
      reads this
    {
      Heartbeat(isRunning, heartbeatAlive, heartbeatInterrupted)
    }

    constructor ()
      ensures Valid()
      ensures license == "" && HeartbeatState() == Heartbeat(false, false, false) && wsClient == null
    {
      license := "";
      isRunning := false;
      heartbeatAlive := false;
      heartbeatInterrupted := false;
      wsClient := null;
    }

    /** `activate`: store the entered key, send the activation request, and
        on status 200 start a heartbeat (only when no thread is alive) and a
        new web socket client (only when java.net.URI, `acceptsUri`, takes its
        endpoint). Any previous client is dropped without being closed. */
    method Activate(text: string, mac: Option<seq<JByte>>, reply: HttpOutcome,
                    parse: Parser, acceptsUri: string -> bool)
      returns (sent: Option<Request>, result: CallResult)
      requires Valid()
      modifies this
      ensures Valid()
      ensures license == text
      ensures mac.None? ==> sent == None && result == NoDeviceId
      ensures mac.Some? ==>
                sent == Some(ActivateRequest(text, HexEncode(mac.value))) && result == Answer(reply, parse)
      ensures result != Accepted ==>
                HeartbeatState() == old(HeartbeatState()) && wsClient == old(wsClient)
      ensures result == Accepted ==>
                HeartbeatState() == if old(heartbeatAlive) then old(HeartbeatState()) else STARTED
      ensures result == Accepted ==>
                (mac.Some? &&
                 var uri := EndpointUri(WS_SERVER_URL, text, HexEncode(mac.value));
                 if acceptsUri(uri) then
                   fresh(wsClient) && wsClient.uri == uri && wsClient.controller == this &&
                   wsClient.mainControllerSet && !wsClient.closed && wsClient.effects == []
                 else wsClient == old(wsClient))
    {
      license := text;
      if mac.None? {
        return None, NoDeviceId;
      }
      var deviceId := GetDeviceId(mac.value);
      sent := Some(ActivateRequest(license, deviceId));
      result := Answer(reply, parse);
      if result == Accepted {
        if !heartbeatAlive {
          isRunning := true;
          heartbeatAlive := true;
          heartbeatInterrupted := false;
        }
        // The background connection thread: the client's constructor
        // throws on an endpoint java.net.URI refuses, before the assignment.
        var uri := EndpointUri(WS_SERVER_URL, license, deviceId);
        if acceptsUri(uri) {
          var client := new LicenseWebSocketClient(WS_SERVER_URL, license, deviceId, this);
          wsClient := client;
          client.SetMainController();
        }
      }
    }

    /** `deactivate`: send the deactivation request; only on status 200 stop
        the heartbeat and close and drop the web socket client. A failure
        leaves everything as it was. */
    method Deactivate(mac: Option<seq<JByte>>, reply: HttpOutcome, parse: Parser)
      returns (sent: Option<Request>, result: CallResult)
      requires Valid()
      modifies this, wsClient
      ensures Valid()
      ensures license == old(license)
      ensures mac.None? ==> sent == None && result == NoDeviceId
      ensures mac.Some? ==>
                sent == Some(DeactivateRequest(license, HexEncode(mac.value))) && result == Answer(reply, parse)
      ensures result != Accepted ==>
                HeartbeatState() == old(HeartbeatState()) && wsClient == old(wsClient) &&
                (wsClient != null ==> unchanged(wsClient))
      ensures result == Accepted ==>
                HeartbeatState() == Stopped(old(HeartbeatState())) && wsClient == null &&
                (old(wsClient) != null ==>
                   old(wsClient).closed && old(wsClient).effects == old(wsClient.effects) &&
                   old(wsClient).mainControllerSet == old(wsClient.mainControllerSet))
    {
      if mac.None? {
        return None, NoDeviceId;
      }
      var deviceId := GetDeviceId(mac.value);
      sent := Some(DeactivateRequest(license, deviceId));
      result := Answer(reply, parse);
      if result == Accepted {
        isRunning := false;
        if heartbeatAlive {
          heartbeatInterrupted := true;
        }
        if wsClient != null {
          wsClient.Close();
          wsClient := null;
        }
      }
    }

    /** `stopHeartbeat`: clear the flag and interrupt a live thread. */
    method StopHeartbeat()
      requires Valid()
      modifies this
      ensures Valid()
      ensures HeartbeatState() == Stopped(old(HeartbeatState()))
      ensures license == old(license) && wsClient == old(wsClient)
    {
      isRunning := false;
      if heartbeatAlive {
        heartbeatInterrupted := true;
      }
    }

    /** One iteration of the heartbeat thread's loop: test `isRunning`, then
        call `heartbeat()`. A non-200 reply is only logged; an exception ends
        the thread. An interrupted thread has `isRunning` false and so ends
        at the test. */
    method HeartbeatTick(mac: Option<seq<JByte>>, reply: HttpOutcome, parse: Parser)
      returns (sent: Option<Request>, tick: Tick)
      requires Valid() && heartbeatAlive
      modifies this
      ensures Valid()
      ensures license == old(license) && wsClient == old(wsClient)
      ensures !old(isRunning) ==> sent == None && tick == LoopEnded
      ensures old(isRunning) && mac.None? ==> sent == None && tick == Beat(NoDeviceId)
      ensures old(isRunning) && mac.Some? ==>
                sent == Some(HeartbeatRequest(license, HexEncode(mac.value))) &&
                tick == Beat(Answer(reply, parse))
      ensures HeartbeatState() == AfterTick(old(HeartbeatState()), tick)
    {
      if !isRunning {
        heartbeatAlive := false;
        heartbeatInterrupted := false;
        return None, LoopEnded;
      }
      if mac.None? {
        sent, tick := None, Beat(NoDeviceId);
      } else {
        var deviceId := GetDeviceId(mac.value);
        sent := Some(HeartbeatRequest(license, deviceId));
        tick := Beat(Answer(reply, parse));
      }
      if !KeepsBeating(tick) {
        heartbeatAlive := false;
      }
    }
  }

  class LicenseWebSocketClient {
    const uri: string
    const controller: Controller?
    /** Whether `setMainController` has handed over the main screen. */
    var mainControllerSet: bool
    /** Whether `close()` has been called. */
    var closed: bool
    /** The effects issued so far, in order. */
    var effects: seq<Effect>

    constructor (serverUrl: string, licenseKey: string, deviceId: string, controller: Controller?)
      ensures uri == EndpointUri(serverUrl, licenseKey, deviceId)
      ensures this.controller == controller
      ensures !mainControllerSet && !closed && effects == []
    {
      uri := EndpointUri(serverUrl, licenseKey, deviceId);
      this.controller := controller;
      mainControllerSet := false;
      closed := false;
      effects := [];
    }

    method SetMainController()
      modifies this
      ensures mainControllerSet
      ensures closed == old(closed) && effects == old(effects)
    {
      mainControllerSet := true;
    }

    method Close()
      modifies this
      ensures closed
      ensures mainControllerSet == old(mainControllerSet) && effects == old(effects)
    {
      closed := true;
    }

    /** `onMessage`: a LOCK is handled, every other message dropped. */
    method OnMessage(parsed: Parsed)
      requires controller != null ==> controller.Valid()
      modifies this, controller
      ensures controller != null ==> controller.Valid()
      ensures mainControllerSet == old(mainControllerSet) && closed == old(closed)
      ensures Classify(parsed).Ignore? ==>
                effects == old(effects) && (controller != null ==> unchanged(controller))
      ensures Classify(parsed).Lock? ==>
                effects == old(effects) + LockTrace(controller != null, mainControllerSet, Classify(parsed).reason)
      ensures Classify(parsed).Lock? && controller != null ==>
                controller.HeartbeatState() == Stopped(old(controller.HeartbeatState())) &&
                controller.license == old(controller.license) &&
                controller.wsClient == old(controller.wsClient)
    {
      match Classify(parsed) {
        case Lock(reason) => HandleLicenseLock(reason);
        case Ignore(_) =>
      }
    }

    /** `handleLicenseLock`: stop the controller's heartbeat first, then
        show the lock on the main screen if one was set, directly otherwise. */
    method HandleLicenseLock(reason: string)
      requires controller != null ==> controller.Valid()
      modifies this, controller
      ensures controller != null ==> controller.Valid()
      ensures mainControllerSet == old(mainControllerSet) && closed == old(closed)
      ensures effects == old(effects) + LockTrace(controller != null, mainControllerSet, reason)
      ensures controller != null ==>
                controller.HeartbeatState() == Stopped(old(controller.HeartbeatState())) &&
                controller.license == old(controller.license) &&
                controller.wsClient == old(controller.wsClient)
    {
      if controller != null {
        controller.StopHeartbeat();
        effects := effects + [HeartbeatStopped];
      }
      if mainControllerSet {
        effects := effects + [MainScreenAlert(reason)];
      } else {
        effects := effects + [DirectAlert(reason)];
      }
    }

    /** `onClose`: at most one reconnect request per close event. */
    method OnClose(code: int, reason: string, remote: bool)
      modifies this
      ensures mainControllerSet == old(mainControllerSet) && closed == old(closed)
      ensures effects == old(effects) + (if ShouldReconnect(code, remote) then [ReconnectRequested] else [])
    {
      if ShouldReconnect(code, remote) {
        effects := effects + [ReconnectRequested];
      }
    }
  }

  /** Two LOCK messages: the controller's heartbeat ends as after one, while
      each message issues its own notification. */
  method LockTwice(client: LicenseWebSocketClient, reason: string)
    requires client.controller != null && client.controller.Valid()
    modifies client, client.controller
    ensures client.controller.HeartbeatState() == Stopped(old(client.controller.HeartbeatState()))
    ensures client.effects ==
              old(client.effects) + LockTrace(true, client.mainControllerSet, reason)
                                  + LockTrace(true, client.mainControllerSet, reason)
  {
    client.OnMessage(LockNotice(reason));
    ClassifyLockNotice(reason);
    client.OnMessage(LockNotice(reason));
    StoppedIdempotent(old(client.controller.HeartbeatState()));
  }

  /** Deactivation followed at once by a new activation, before the old
      heartbeat thread has taken its next step: the activation finds the
      thread alive, so it neither starts a heartbeat nor sets `isRunning`, and
      the old thread then leaves its loop. No heartbeat runs afterwards. */
  method ReactivateBeforeThreadExits(c: Controller, mac: seq<JByte>, parse: Parser, acceptsUri: string -> bool)
    requires c.Valid() && c.isRunning && c.heartbeatAlive
    modifies c, c.wsClient
    ensures c.Valid()
    ensures !c.isRunning && !c.heartbeatAlive
  {
    var _, r1 := c.Deactivate(Some(mac), Response(HTTP_OK, ""), parse);
    var _, r2 := c.Activate(c.license, Some(mac), Response(HTTP_OK, ""), parse, acceptsUri);
    assert c.heartbeatAlive && !c.isRunning;
    var _, t := c.HeartbeatTick(Some(mac), Response(HTTP_OK, ""), parse);
  }
}

/** The decisions `LicenseWebSocketClient` takes: the endpoint it connects
    to, what an inbound message means, whether a close is followed by a
    reconnect, and the order of the effects of a license lock. */
module SocketRules {
  import opened Wire

  // ---------------------------------------------------------------------
  // Endpoint
  // ---------------------------------------------------------------------

  const QUERY_LICENSE := "/ws/license?licenseKey="
  const QUERY_DEVICE := "&deviceId="

  /** The endpoint string of the constructor: plain concatenation, nothing
      escaped. */
  function EndpointUri(serverUrl: string, licenseKey: string, deviceId: string): (uri: string)
    ensures |uri| == |serverUrl| + 23 + |licenseKey| + 10 + |deviceId|
  {
    serverUrl + QUERY_LICENSE + licenseKey + QUERY_DEVICE + deviceId
  }

  /** The position of the first `&` in `s`, or `|s|` when there is none. */
  function AmpersandIndex(s: string): (n: nat)
    ensures n <= |s|
  {
    if s == [] || s[0] == '&' then 0 else 1 + AmpersandIndex(s[1..])
  }

  lemma {:induction false} AmpersandIndexAfterKey(k: string, rest: string)
    requires '&' !in k && rest != [] && rest[0] == '&'
    ensures AmpersandIndex(k + rest) == |k|
  {
    if k == [] {
      assert k + rest == rest;
    } else {
      assert k[0] in k;
      assert (k + rest)[1..] == k[1..] + rest;
      assert forall c :: c in k[1..] ==> c in k;
      AmpersandIndexAfterKey(k[1..], rest);
    }
  }

  /** The endpoint determines the license key and the device id, as long as
      the license key holds no `&`. */
  lemma EndpointUriInjective(serverUrl: string, k1: string, d1: string, k2: string, d2: string)
    requires '&' !in k1 && '&' !in k2
    requires EndpointUri(serverUrl, k1, d1) == EndpointUri(serverUrl, k2, d2)
    ensures k1 == k2 && d1 == d2
  {
    var p := serverUrl + QUERY_LICENSE;
    var u := EndpointUri(serverUrl, k1, d1);
    assert u == p + k1 + QUERY_DEVICE + d1;
    assert u == p + k2 + QUERY_DEVICE + d2;
    var q := u[|p|..];
    assert q == k1 + (QUERY_DEVICE + d1) && q == k2 + (QUERY_DEVICE + d2);
    AmpersandIndexAfterKey(k1, QUERY_DEVICE + d1);
    AmpersandIndexAfterKey(k2, QUERY_DEVICE + d2);
    assert k1 == u[|p| .. |p| + |k1|];
    assert k2 == u[|p| .. |p| + |k2|];
    assert d1 == u[|p| + |k1| + 10 ..];
    assert d2 == u[|p| + |k2| + 10 ..];
  }

  /** Without escaping, a license key holding `&deviceId=` makes two
      different identities share one endpoint. */
  lemma EndpointUriAmbiguous()
    ensures EndpointUri("ws://h", "K&deviceId=X", "Y") == EndpointUri("ws://h", "K", "X&deviceId=Y")
  {
  }

  // ---------------------------------------------------------------------
  // Inbound messages
  // ---------------------------------------------------------------------

  const LOCK_TYPE := "LOCK"
  const DEFAULT_LOCK_REASON := "License has been revoked"

  /** Why a message was dropped. `UnreadableField` stands for `getAsString`
      throwing on the `type` or `reason` member. */
  datatype IgnoreCause = NotAnObject | NoType | UnknownType(t: string) | UnreadableField

  datatype MessageAction = Lock(reason: string) | Ignore(cause: IgnoreCause)

  /** `onMessage` without its logging: what a message whose parse is
      `parsed` leads to. */
  function Classify(parsed: Parsed): (a: MessageAction)
    ensures a.Lock? ==> parsed.Obj? && StringField(parsed.fields, "type") == Text(LOCK_TYPE)
  {
    match parsed
    case NotObject => Ignore(NotAnObject)
    case Obj(fields) =>
      match StringField(fields, "type")
      case Absent => Ignore(NoType)
      case Unreadable => Ignore(UnreadableField)
      case Text(t) =>
        if t != LOCK_TYPE then Ignore(UnknownType(t))
        else match StringField(fields, "reason")
          case Absent => Lock(DEFAULT_LOCK_REASON)
          case Unreadable => Ignore(UnreadableField)
          case Text(r) => Lock(r)
  }

  /** The lock notice the server pushes, `{"type": "LOCK", "reason": r}`. */
  function LockNotice(reason: string): Parsed {
    Obj(map["type" := Primitive(LOCK_TYPE), "reason" := Primitive(reason)])
  }

  /** A lock notice locks with the reason it carries. */
  lemma ClassifyLockNotice(reason: string)
    ensures Classify(LockNotice(reason)) == Lock(reason)
  {
  }

  /** A LOCK with no `reason` member locks with the default reason. */
  lemma ClassifyLockWithoutReason(fields: map<string, JsonValue>)
    requires StringField(fields, "type") == Text(LOCK_TYPE)
    requires "reason" !in fields
    ensures Classify(Obj(fields)) == Lock(DEFAULT_LOCK_REASON)
  {
  }

  /** A message locks exactly when it is an object whose `type` reads as
      "LOCK" and whose `reason`, if present, reads as a string; the reason is
      then that string, or the default one. */
  lemma ClassifyLockIff(parsed: Parsed)
    ensures Classify(parsed).Lock? <==>
              parsed.Obj? && StringField(parsed.fields, "type") == Text(LOCK_TYPE) &&
              !StringField(parsed.fields, "reason").Unreadable?
    ensures Classify(parsed).Lock? ==>
              Classify(parsed).reason == match StringField(parsed.fields, "reason")
                                         case Text(r) => r
                                         case _ => DEFAULT_LOCK_REASON
  {
  }

  /** Anything that is not an object, has no `type`, or has another type is
      ignored. */
  lemma ClassifyIgnores(parsed: Parsed)
    requires parsed.NotObject? || "type" !in parsed.fields ||
             (StringField(parsed.fields, "type").Text? && StringField(parsed.fields, "type").s != LOCK_TYPE)
    ensures Classify(parsed).Ignore?
  {
  }

  // ---------------------------------------------------------------------
  // Close
  // ---------------------------------------------------------------------

  /** "Normal Closure", section 7.4.1 of RFC 6455. */
  const NORMAL_CLOSURE := 1000

  /** `onClose`: reconnect after a close that is neither normal nor
      initiated by the server. */
  predicate ShouldReconnect(code: int, remote: bool): (r: bool)
    ensures code == NORMAL_CLOSURE ==> !r
    ensures remote ==> !r
    ensures code != NORMAL_CLOSURE && !remote ==> r
  {
    code != NORMAL_CLOSURE && !remote
  }

  lemma NormalOrRemoteCloseNeverReconnects(code: int, remote: bool)
    requires code == NORMAL_CLOSURE || remote
    ensures !ShouldReconnect(code, remote)
  {
  }

  lemma AbnormalLocalCloseReconnects(code: int)
    requires code != NORMAL_CLOSURE
    ensures ShouldReconnect(code, false)
  {
  }

  // ---------------------------------------------------------------------
  // Effects
  // ---------------------------------------------------------------------

  /** The observable acts of the client, in the order they happen.
      `MainScreenAlert` is `MainController.showLockAlert`; `DirectAlert` is the
      alert the client raises itself. Both end the process once dismissed. */
  datatype Effect =
    | HeartbeatStopped
    | MainScreenAlert(reason: string)
    | DirectAlert(reason: string)
    | ReconnectRequested

  predicate IsNotification(e: Effect) {
    e.MainScreenAlert? || e.DirectAlert?
  }

  /** The effects of `handleLicenseLock`: stop the heartbeat when a
      controller is known, then exactly one notification. */
  function LockTrace(hasController: bool, hasMainController: bool, reason: string): (t: seq<Effect>)
    ensures |t| == if hasController then 2 else 1
    ensures forall i :: 0 <= i < |t| - 1 ==> t[i] == HeartbeatStopped
    ensures IsNotification(t[|t| - 1]) && t[|t| - 1].reason == reason
    ensures t[|t| - 1].MainScreenAlert? <==> hasMainController
  {
    (if hasController then [HeartbeatStopped] else [])
    + [if hasMainController then MainScreenAlert(reason) else DirectAlert(reason)]
  }

  function CountNotifications(t: seq<Effect>): nat {
    if t == [] then 0 else (if IsNotification(t[0]) then 1 else 0) + CountNotifications(t[1..])
  }

  lemma {:induction false} CountNotificationsAppend(a: seq<Effect>, b: seq<Effect>)
    ensures CountNotifications(a + b) == CountNotifications(a) + CountNotifications(b)
  {
    if a != [] {
      assert (a + b)[1..] == a[1..] + b;
      CountNotificationsAppend(a[1..], b);
    } else {
      assert a + b == b;
    }
  }

  /** A lock issues one notification, and every heartbeat stop it issues
      comes before that notification. */
  lemma {:induction false} LockTraceNotifiesOnce(hasController: bool, hasMainController: bool, reason: string)
    ensures CountNotifications(LockTrace(hasController, hasMainController, reason)) == 1
    ensures forall j :: 0 <= j < |LockTrace(hasController, hasMainController, reason)| ==>
              (LockTrace(hasController, hasMainController, reason)[j] == HeartbeatStopped) ==
              (hasController && j == 0)
  {
    var t := LockTrace(hasController, hasMainController, reason);
    if hasController {
      assert t == [HeartbeatStopped] + [t[1]];
      CountNotificationsAppend([HeartbeatStopped], [t[1]]);
      assert CountNotifications([HeartbeatStopped]) == 0;
    }
    assert CountNotifications([t[|t| - 1]]) == 1;
  }
}

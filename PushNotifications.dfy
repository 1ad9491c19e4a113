/** Web push subscription (src/hooks/usePushNotifications.ts): turning the
    server's published key into bytes, the subscribe sequence, the status
    check, and the state of the hook that the push dialog and toggle each use.
    Every browser and server step is an input: a `Browser` value records what
    each awaited call would produce. */
module PushNotifications {
  import opened Types
  import opened Base64

  /** `Notification.permission` and the answer of `requestPermission()`. */
  datatype Permission = Default | Granted | Denied

  /** The outcome of one awaited step: its value, or a rejection. */
  datatype Step<T> = Done(value: T) | Threw

  datatype Subscription = Subscription(endpoint: string)

  /** The body of the backend's reply to `POST /notifications/subscribe`. */
  datatype BackendReply = BackendReply(error: bool, message: Option<string>)

  /** What the browser and the server answer to each step of the flow:
      whether the two APIs exist, the current permission, the answer to the
      permission prompt, the subscription the push manager already holds
      (`None` for `null`), the `publicKey` field of the key endpoint's body
      (`None` when the field is missing), the subscription the push manager
      creates, and the backend's reply. */
  datatype Browser = Browser(
    hasNotification: bool,
    hasServiceWorker: bool,
    permission: Permission,
    permissionAnswer: Step<Permission>,
    existing: Step<Option<Subscription>>,
    vapidKey: Step<Option<string>>,
    created: Step<Subscription>,
    backend: Step<BackendReply>)

  /** The calls the flow makes outside the page, in order. */
  datatype Call =
    | RequestPermission
    | AwaitReady
    | GetSubscription
    | FetchVapidKey
    | CreateSubscription(key: seq<Byte>)
    | Register(subscription: Subscription)

  /** Both `'Notification' in window` and `'serviceWorker' in navigator`. */
  predicate Supported(b: Browser)
  {
    b.hasNotification && b.hasServiceWorker
  }

  // ---------------------------------------------------------------------
  // The application server key

  /** The key as base64: `=` padding up to a multiple of four characters,
      then the base64url digits `-` and `_` mapped to `+` and `/`. */
  function UrlBase64ToBase64(key: string): string
  {
    ToStandard(key + Pad(PaddingFor(|key|)))
  }

  /** `(4 - length % 4) % 4`: the number of `=`, fewer than four, that
      brings a length to a multiple of four. */
  function PaddingFor(length: nat): (n: nat)
    ensures n < 4 && (length + n) % 4 == 0
  {
    (4 - length % 4) % 4
  }

  /** The converted key is padded to a multiple of four with `=`, maps `-` to
      `+` and `_` to `/`, and keeps every other character. */
  lemma UrlBase64ToBase64Shape(key: string)
    ensures var r := UrlBase64ToBase64(key);
      |r| == |key| + PaddingFor(|key|) && |r| % 4 == 0
      && (forall i :: 0 <= i < |key| ==>
        r[i] == if key[i] == '-' then '+' else if key[i] == '_' then '/' else key[i])
      && (forall i :: |key| <= i < |r| ==> r[i] == '=')
  {
    var n := PaddingFor(|key|);
    var p := key + Pad(n);
    var r := UrlBase64ToBase64(key);
    assert r == ReplaceAll(ReplaceAll(p, '-', '+'), '_', '/');
    forall i | 0 <= i < |key| ensures r[i] == if key[i] == '-' then '+' else if key[i] == '_' then '/' else key[i] {
      assert p[i] == key[i];
    }
    forall i | |key| <= i < |r| ensures r[i] == '=' {
      assert p[i] == '=';
    }
  }

  /** The byte a `Uint8Array` stores for each character code. */
  function CharCodes(raw: string): (r: seq<Byte>)
    ensures |r| == |raw|
    ensures forall i :: 0 <= i < |raw| && raw[i] as int < 256 ==> r[i] == raw[i] as int
  {
    seq(|raw|, i requires 0 <= i < |raw| => (raw[i] as int) % 256)
  }

  /** The bytes `urlBase64ToUint8Array` returns, or None where `atob` throws. */
  function KeyBytes(key: string): Option<seq<Byte>>
  {
    match Atob(UrlBase64ToBase64(key))
    case None => None
    case Some(raw) => Some(CharCodes(raw))
  }

  /** `urlBase64ToUint8Array`: decodes the converted key and copies its
      characters into a new byte array one by one. */
  method UrlBase64ToUint8Array(key: string) returns (out: Option<array<Byte>>)
    ensures out.None? <==> KeyBytes(key).None?
    ensures out.Some? ==> fresh(out.value) && out.value[..] == KeyBytes(key).value
  {
    var raw := Atob(UrlBase64ToBase64(key));
    if raw.None? {
      return None;
    }
    var data := raw.value;
    var bytes := new Byte[|data|];
    for i := 0 to |data|
      invariant forall j :: 0 <= j < i ==> bytes[j] == data[j] as int
    {
      bytes[i] := data[i] as int;
    }
    assert bytes[..] == CharCodes(data);
    return Some(bytes);
  }

  /** Remapping base64 digits to the safe alphabet and back, with the
      padding the conversion computes, restores the digits and pads them. */
  lemma ConvertDigits(d: string)
    requires AllStd(d)
    ensures UrlBase64ToBase64(ToUrlSafe(d)) == d + Pad(PaddingFor(|d|))
  {
    var u := ToUrlSafe(d);
    var n := PaddingFor(|d|);
    assert |u| == |d|;
    assert UrlBase64ToBase64(u) == ToStandard(u + Pad(n));
    ToStandardConcat(u, Pad(n));
    ToStandardOfPad(n);
    StandardOfUrlSafe(d);
  }

  /** Padding and remapping a base64url key without padding gives exactly the
      padded base64 encoding of the same bytes. */
  lemma KeyConversion(b: seq<Byte>)
    ensures UrlBase64ToBase64(UrlEncode(b)) == Encode(b)
  {
    var d := EncodeDigits(b);
    var q, m := |b| / 3, |b| % 3;
    assert |d| == 4 * q + (if m == 0 then 0 else m + 1);
    assert |d| % 4 == if m == 0 then 0 else m + 1;
    var n := if m == 0 then 0 else 3 - m;
    assert PaddingFor(|d|) == n;
    assert Encode(b) == d + Pad(n);
    ConvertDigits(d);
  }

  /** A key published as unpadded base64url turns back into its own bytes. */
  lemma KeyRoundTrip(b: seq<Byte>)
    ensures KeyBytes(UrlEncode(b)) == Some(b)
  {
    KeyConversion(b);
    AtobEncode(b);
    assert CharCodes(BinaryString(b)) == b;
  }

  // ---------------------------------------------------------------------
  // The subscribe sequence

  /** The key bytes a fresh subscription is created with, when the key
      endpoint answers with a key that decodes. */
  function KeyOf(b: Browser): Option<seq<Byte>>
  {
    match b.vapidKey
    case Done(Some(k)) => KeyBytes(k)
    case _ => None
  }

  /** The subscription sent to the backend once permission is granted: the
      one the push manager holds, else a new one when the key decodes and the
      push manager creates it. */
  function ToRegister(b: Browser): (r: Option<Subscription>)
    ensures b.existing.Done? && b.existing.value.Some? ==> r == b.existing.value
    ensures b.existing.Threw? ==> r == None
    ensures b.existing == Done(None) ==>
      (r.Some? <==> KeyOf(b).Some? && b.created.Done?) && (r.Some? ==> r.value == b.created.value)
  {
    match b.existing
    case Threw => None
    case Done(Some(s)) => Some(s)
    case Done(None) => if KeyOf(b).Some? && b.created.Done? then Some(b.created.value) else None
  }

  /** The conditions under which subscribing reports success. */
  predicate SubscribeSucceeds(b: Browser)
  {
    Supported(b) && b.permissionAnswer == Done(Granted) && ToRegister(b).Some?
    && b.backend.Done? && !b.backend.value.error
  }

  /** Steps 4 to 6 of the flow: the subscription the push manager holds is
      reused; only when it holds none is the key fetched and decoded and a
      new subscription created with it. A rejection on the way leaves no
      subscription. */
  method ObtainSubscription(b: Browser) returns (subscription: Option<Subscription>, calls: seq<Call>)
    ensures subscription == ToRegister(b)
    ensures |calls| >= 1 && calls[0] == GetSubscription
    ensures FetchVapidKey in calls <==> b.existing == Done(None)
    ensures forall k :: CreateSubscription(k) in calls ==> b.existing == Done(None) && KeyOf(b) == Some(k)
    ensures forall c :: c in calls ==> !c.Register? && !c.RequestPermission?
  {
    calls := [GetSubscription];
    match b.existing {
      case Threw =>
        return None, calls;
      case Done(Some(s)) =>
        return Some(s), calls;
      case Done(None) =>
        calls := calls + [FetchVapidKey];
        if !(b.vapidKey.Done? && b.vapidKey.value.Some?) {
          return None, calls;
        }
        var key := UrlBase64ToUint8Array(b.vapidKey.value.value);
        if key.None? {
          return None, calls;
        }
        calls := calls + [CreateSubscription(key.value[..])];
        if b.created.Threw? {
          return None, calls;
        }
        return Some(b.created.value), calls;
    }
  }

  /** `subscribeToPushNotifications`: the result and the calls made. Nothing
      is asked of an unsupported browser; a permission other than granted
      ends the flow before any other call; a key is fetched and a
      subscription created only when none exists; the result is true exactly
      when the backend accepted the subscription, and every rejection on the
      way, the backend's `error` flag included, gives false. */
  method SubscribeToPush(b: Browser) returns (ok: bool, calls: seq<Call>)
    ensures !Supported(b) ==> !ok && calls == []
    ensures Supported(b) ==> |calls| >= 1 && calls[0] == RequestPermission
    ensures Supported(b) && b.permissionAnswer != Done(Granted) ==> !ok && calls == [RequestPermission]
    ensures FetchVapidKey in calls <==>
      Supported(b) && b.permissionAnswer == Done(Granted) && b.existing == Done(None)
    ensures forall k :: CreateSubscription(k) in calls ==> b.existing == Done(None) && KeyOf(b) == Some(k)
    ensures (exists s :: Register(s) in calls) <==>
      Supported(b) && b.permissionAnswer == Done(Granted) && ToRegister(b).Some?
    ensures forall s :: Register(s) in calls ==> ToRegister(b) == Some(s)
    ensures ok <==> SubscribeSucceeds(b)
    ensures ok ==> calls[|calls| - 1] == Register(ToRegister(b).value)
  {
    if !b.hasNotification || !b.hasServiceWorker {
      return false, [];
    }
    if b.permissionAnswer != Done(Granted) {
      return false, [RequestPermission];
    }
    var subscription, obtained := ObtainSubscription(b);
    calls := [RequestPermission, AwaitReady] + obtained;
    if subscription.None? {
      return false, calls;
    }
    calls := calls + [Register(subscription.value)];
    ok := b.backend.Done? && !b.backend.value.error;
  }

  /** When the push manager holds no subscription and the server publishes a
      key as unpadded base64url, the new subscription is created with that
      key's own bytes. */
  lemma SubscribesWithPublishedKey(b: Browser, key: seq<Byte>)
    requires b.existing == Done(None) && b.vapidKey == Done(Some(UrlEncode(key)))
    ensures KeyOf(b) == Some(key)
    ensures b.created.Done? ==> ToRegister(b) == Some(b.created.value)
  {
    KeyRoundTrip(key);
  }

  /** `checkPushSubscription`: true exactly when both APIs exist, permission
      is already granted and the push manager holds a subscription. It never
      prompts for permission. */
  method CheckPushSubscription(b: Browser) returns (subscribed: bool, calls: seq<Call>)
    ensures subscribed <==> Supported(b) && b.permission == Granted && b.existing.Done? && b.existing.value.Some?
    ensures RequestPermission !in calls
    ensures !(Supported(b) && b.permission == Granted) ==> calls == []
  {
    calls := [];
    if !b.hasServiceWorker || !b.hasNotification {
      return false, calls;
    }
    if b.permission != Granted {
      return false, calls;
    }
    calls := [AwaitReady, GetSubscription];
    subscribed := b.existing.Done? && b.existing.value.Some?;
  }

  /** The state of `usePushNotifications`. */
  class PushHook {
    var isSubscribed: bool
    var isLoading: bool
    var permissionStatus: Permission

    constructor ()
      ensures !isSubscribed && !isLoading && permissionStatus == Default
    {
      isSubscribed := false;
      isLoading := false;
      permissionStatus := Default;
    }

    /** The mount effect: with the Notification API present, the permission
        and the subscription status are read; without it nothing changes. */
    method CheckStatus(b: Browser)
      modifies this`isSubscribed, this`permissionStatus
      ensures !b.hasNotification ==> isSubscribed == old(isSubscribed) && permissionStatus == old(permissionStatus)
      ensures b.hasNotification ==> permissionStatus == b.permission
      ensures b.hasNotification ==>
        (isSubscribed <==> b.hasServiceWorker && b.permission == Granted && b.existing.Done? && b.existing.value.Some?)
    {
      if b.hasNotification {
        permissionStatus := b.permission;
        var subscribed, calls := CheckPushSubscription(b);
        isSubscribed := subscribed;
      }
    }

    /** `subscribe`: runs the flow, records its result as the subscription
        status, reads the (now granted) permission after a success, and is
        not loading afterwards whatever happened. */
    method Subscribe(b: Browser) returns (success: bool)
      modifies this
      ensures success <==> SubscribeSucceeds(b)
      ensures isSubscribed == success && !isLoading
      ensures permissionStatus == if success then Granted else old(permissionStatus)
    {
      isLoading := true;
      var calls;
      success, calls := SubscribeToPush(b);
      isSubscribed := success;
      if success && b.hasNotification {
        permissionStatus := Granted;
      }
      isLoading := false;
    }
  }
}

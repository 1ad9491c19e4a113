/** The service worker (public/service-worker.js): the notification shown for
    a push message, the window a click on it focuses or opens, and the
    activation step. Browser calls are returned as a list of effects. */
module ServiceWorker {
  import opened Types
  import opened Text

  const Icon: string := "/icon-192x192.png"
  const Badge: string := "/badge-72x72.png"
  const Vibrate: seq<int> := [100, 50, 100]
  /** The page opened when a message names none. */
  const DefaultUrl: string := "/"

  /** The fields of a push message's JSON body that the worker reads. */
  datatype Payload = Payload(title: Option<string>, body: Option<string>, url: Option<string>)

  /** A push event's data: none, a body that is not JSON, or a JSON payload. */
  datatype PushData = NoData | Malformed | Json(payload: Payload)

  /** The options passed to `showNotification` (the tag is not modelled). */
  datatype Options = Options(body: Option<string>, icon: string, badge: string, url: string, vibrate: seq<int>)

  datatype Notification = Notification(title: Option<string>, options: Options)

  /** `payload.url || '/'`, and `event.notification.data.url || '/'`. */
  function UrlOrDefault(url: Option<string>): (r: string)
    ensures r != ""
    ensures Truthy(url) ==> r == url.value
    ensures !Truthy(url) ==> r == DefaultUrl
  {
    if Truthy(url) then url.value else DefaultUrl
  }

  /** The `push` handler: no notification without data or with a body that is
      not JSON (`json()` throws); otherwise the payload's title and body with
      the fixed icon, badge and vibration pattern, and the payload's URL or
      the root page as the notification's data. */
  function OnPush(data: PushData): (r: Option<Notification>)
    ensures r.Some? <==> data.Json?
    ensures r.Some? ==> r.value.title == data.payload.title && r.value.options.body == data.payload.body
    ensures r.Some? ==> (r.value.options.icon == Icon && r.value.options.badge == Badge
      && r.value.options.vibrate == Vibrate)
    ensures r.Some? ==> (r.value.options.url != ""
      && (Truthy(data.payload.url) ==> r.value.options.url == data.payload.url.value)
      && (!Truthy(data.payload.url) ==> r.value.options.url == DefaultUrl))
  {
    match data
    case Json(p) => Some(Notification(p.title, Options(p.body, Icon, Badge, UrlOrDefault(p.url), Vibrate)))
    case _ => None
  }

  /** A window client as `clients.matchAll` lists it. */
  datatype Client = Client(url: string, canFocus: bool)

  /** What the worker asks the browser to do, in order. */
  datatype Effect =
    | CloseNotification
    | Focus(index: nat)
    | Navigate(index: nat, url: string)
    | OpenWindow(url: string)
    | ClaimClients

  /** A client on this origin that can be focused. */
  predicate Reusable(c: Client, origin: string)
  {
    Includes(c.url, origin) && c.canFocus
  }

  /** The index of the first reusable client, if any. */
  function FirstReusable(clients: seq<Client>, origin: string): (r: Option<nat>)
    ensures r.Some? ==> (r.value < |clients| && Reusable(clients[r.value], origin)
      && forall j :: 0 <= j < r.value ==> !Reusable(clients[j], origin))
    ensures r.None? ==> forall j :: 0 <= j < |clients| ==> !Reusable(clients[j], origin)
  {
    if clients == [] then None
    else if Reusable(clients[0], origin) then Some(0)
    else match FirstReusable(clients[1..], origin)
      case None => None
      case Some(i) => Some(i + 1)
  }

  /** The `notificationclick` handler: closes the notification, then focuses
      the first reusable window and navigates it to the notification's URL;
      only when there is none does it open a new window, and only when the
      browser offers `openWindow`. */
  method OnNotificationClick(dataUrl: Option<string>, clients: seq<Client>, origin: string, canOpenWindow: bool)
    returns (effects: seq<Effect>)
    ensures |effects| >= 1 && effects[0] == CloseNotification
    ensures forall i :: FirstReusable(clients, origin) == Some(i) ==>
      effects == [CloseNotification, Focus(i), Navigate(i, UrlOrDefault(dataUrl))]
    ensures FirstReusable(clients, origin).None? ==>
      effects == [CloseNotification] + (if canOpenWindow then [OpenWindow(UrlOrDefault(dataUrl))] else [])
  {
    effects := [CloseNotification];
    var urlToOpen := UrlOrDefault(dataUrl);
    var i := 0;
    while i < |clients|
      invariant 0 <= i <= |clients|
      invariant forall j :: 0 <= j < i ==> !Reusable(clients[j], origin)
    {
      if Includes(clients[i].url, origin) && clients[i].canFocus {
        return effects + [Focus(i), Navigate(i, urlToOpen)];
      }
      i := i + 1;
    }
    if canOpenWindow {
      effects := effects + [OpenWindow(urlToOpen)];
    }
  }

  /** A click on a notification shown for a push message goes to the URL the
      message named, or to the root page when it named none. */
  lemma ClickFollowsPushedUrl(p: Payload)
    ensures var n := OnPush(Json(p));
      n.Some? && UrlOrDefault(Some(n.value.options.url)) == n.value.options.url
      && (Truthy(p.url) ==> n.value.options.url == p.url.value)
  {
  }

  /** The `activate` handler takes control of the open pages at once. */
  function OnActivate(): seq<Effect>
  {
    [ClaimClients]
  }
}

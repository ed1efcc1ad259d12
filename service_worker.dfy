/** The driver client's service worker: the notification built from a push
    message, cache clean-up on activation, the network-first fetch with a
    cache fallback, and the notification click. */
module ServiceWorker {
  import opened Base

  const CacheName := "transport-dange-chauffeur-v1"
  const DefaultTitle := "🚖 Transport DanGE"
  const DefaultBody := "Nouvelle mission disponible"
  const Logo := "/logo192.png"
  const NotificationTag := "mission-notification"
  const ViewAction := "view"
  const DismissAction := "dismiss"

  /** `payload.notification`, present when truthy. */
  datatype NotificationPart = NotificationPart(title: Value, body: Value)

  /** A decoded push payload; `data` is `None` when `payload.data` is absent. */
  datatype Payload = Payload(notification: Option<NotificationPart>, data: Option<map<string, string>>)

  /** `event.data`: absent, not JSON (`json()` throws), or a payload. */
  datatype PushData = NoData | Malformed | Json(payload: Payload)

  datatype Notification = Notification(
    title: string,
    body: string,
    icon: string,
    tag: string,
    requireInteraction: bool,
    data: map<string, string>,
    actions: seq<string>)

  /** The notification shown when a push carries nothing usable. */
  const DefaultNotification := Notification(DefaultTitle, DefaultBody, Logo, NotificationTag, true, map[], [ViewAction, DismissAction])

  /** `x || fallback` for a text field. */
  function OrDefault(v: Value, fallback: string): (r: string)
    ensures Truthy(v) ==> r == JsString(v)
    ensures !Truthy(v) ==> r == fallback
  {
    if Truthy(v) then JsString(v) else fallback
  }

  /** The `push` handler: the default notification, with title, body and data
      taken from the payload when it carries a `notification` part. */
  method NotificationFor(push: PushData) returns (n: Notification)
    ensures !(push.Json? && push.payload.notification.Some?) ==> n == DefaultNotification
    ensures push.Json? && push.payload.notification.Some? ==>
              n.title == OrDefault(push.payload.notification.value.title, DefaultTitle)
              && n.body == OrDefault(push.payload.notification.value.body, DefaultBody)
              && n.data == (if push.payload.data.Some? then push.payload.data.value else map[])
    ensures n.icon == Logo && n.tag == NotificationTag && n.requireInteraction
    ensures n.actions == [ViewAction, DismissAction]
  {
    n := DefaultNotification;
    if push.Json? {
      var payload := push.payload;
      if payload.notification.Some? {
        n := n.(title := OrDefault(payload.notification.value.title, n.title));
        n := n.(body := OrDefault(payload.notification.value.body, n.body));
        n := n.(data := if payload.data.Some? then payload.data.value else map[]);
      }
    }
  }

  /** A response as the fetch handler sees it. */
  datatype Response = Response(ok: bool, status: nat, body: string)

  /** `caches`: named caches in creation order, each mapping a request URL to
      a stored response. */
  class CacheStorage {
    var names: seq<string>
    var caches: map<string, map<string, Response>>

    ghost predicate Valid()
      reads this
    {
      Distinct(names) && (forall n :: n in caches <==> n in names)
    }

    constructor ()
      ensures Valid() && names == [] && caches == map[]
    {
      names := [];
      caches := map[];
    }

    /** `caches.match(request)`: the first cache, in creation order, holding
        the request. */
    function Match(request: string): (r: Option<Response>)
      reads this
      requires Valid()
      ensures r.Some? ==> exists n :: n in caches && request in caches[n] && caches[n][request] == r.value
      ensures r.None? ==> forall n :: n in caches ==> request !in caches[n]
    {
      MatchIn(names, caches, request)
    }

    /** `caches.open(CacheName)` then `cache.put(request, response)`. */
    method Put(request: string, response: Response)
      requires Valid()
      modifies this
      ensures Valid()
      ensures caches == old(caches)[CacheName := GetOr(old(caches), CacheName, map[])[request := response]]
      ensures CacheName in old(caches) ==> names == old(names)
      ensures CacheName !in old(caches) ==> names == old(names) + [CacheName]
    {
      if CacheName !in caches {
        names := names + [CacheName];
      }
      caches := caches[CacheName := GetOr(caches, CacheName, map[])[request := response]];
    }

    /** `caches.delete(name)`. */
    method Delete(name: string)
      requires Valid()
      modifies this
      ensures Valid()
      ensures caches == old(caches) - {name}
      ensures forall n :: n in names <==> n in old(names) && n != name
    {
      names := RemoveName(names, name);
      caches := caches - {name};
    }

    /** The `activate` handler: every cache but the current one is deleted;
        the current one is left as it was. */
    method Activate()
      requires Valid()
      modifies this
      ensures Valid()
      ensures caches.Keys == old(caches).Keys * {CacheName}
      ensures CacheName in caches ==> caches[CacheName] == old(caches)[CacheName]
    {
      var cacheNames := names;
      var i := 0;
      while i < |cacheNames|
        invariant 0 <= i <= |cacheNames|
        invariant Valid()
        invariant caches.Keys == old(caches).Keys - (set k | 0 <= k < i && cacheNames[k] != CacheName :: cacheNames[k])
        invariant forall n :: n in caches ==> caches[n] == old(caches)[n]
      {
        if cacheNames[i] != CacheName {
          Delete(cacheNames[i]);
        }
        i := i + 1;
      }
      assert forall n :: n in old(caches) ==> n in cacheNames;
    }

    /** The `fetch` handler. `network` is the outcome of `fetch(request)`:
        `None` when it fails. A response with `ok` is stored in the current
        cache and returned; any other response is returned uncached; on a
        network failure the cached match, if any, is returned. */
    method Fetch(request: string, network: Option<Response>) returns (r: Option<Response>)
      requires Valid()
      modifies this
      ensures Valid()
      ensures network.Some? ==> r == network
      ensures network.Some? && network.value.ok ==>
                caches == old(caches)[CacheName := GetOr(old(caches), CacheName, map[])[request := network.value]]
      ensures network.Some? && !network.value.ok ==> caches == old(caches) && names == old(names)
      ensures network.None? ==> r == old(Match(request)) && caches == old(caches) && names == old(names)
    {
      if network.Some? {
        if network.value.ok {
          Put(request, network.value);
        }
        r := network;
      } else {
        r := Match(request);
      }
    }
  }

  function MatchIn(names: seq<string>, caches: map<string, map<string, Response>>, request: string): (r: Option<Response>)
    requires forall n :: n in names ==> n in caches
    ensures r.Some? ==> exists i :: 0 <= i < |names| && request in caches[names[i]]
                          && caches[names[i]][request] == r.value
                          && forall j :: 0 <= j < i ==> request !in caches[names[j]]
    ensures r.None? ==> forall n :: n in names ==> request !in caches[n]
  {
    if names == [] then None
    else if request in caches[names[0]] then Some(caches[names[0]][request])
    else MatchIn(names[1..], caches, request)
  }

  predicate Distinct(names: seq<string>)
  {
    forall i, j :: 0 <= i < j < |names| ==> names[i] != names[j]
  }

  function RemoveName(names: seq<string>, name: string): (r: seq<string>)
    ensures forall n :: n in r <==> n in names && n != name
    ensures Distinct(names) ==> Distinct(r)
  {
    if names == [] then []
    else if names[0] == name then RemoveName(names[1..], name)
    else
      var rest := RemoveName(names[1..], name);
      assert Distinct(names) ==> names[0] !in names[1..];
      assert Distinct(names) ==> Distinct(names[1..]);
      [names[0]] + rest
  }

  /** An open window of the application. */
  datatype WindowClient = WindowClient(url: string, focusable: bool)

  /** What follows a notification click once the notification is closed. */
  datatype ClickAction = NoAction | Focus(index: nat) | OpenWindow(url: string)

  /** The `notificationclick` handler after `notification.close()`:
      `dismiss` stops there; otherwise the first window whose URL contains
      `/` and that can be focused is focused, or a new window opened at `/`
      when the browser allows it. */
  function OnNotificationClick(action: string, clients: seq<WindowClient>, canOpenWindow: bool): (r: ClickAction)
    ensures action == DismissAction ==> r == NoAction
    ensures r.Focus? ==> action != DismissAction && r.index < |clients|
                         && Contains(clients[r.index].url, "/") && clients[r.index].focusable
                         && forall k :: 0 <= k < r.index ==> !(Contains(clients[k].url, "/") && clients[k].focusable)
    ensures r.OpenWindow? ==> r.url == "/" && canOpenWindow
                              && forall k :: 0 <= k < |clients| ==> !(Contains(clients[k].url, "/") && clients[k].focusable)
    ensures (action != DismissAction
             && exists k :: 0 <= k < |clients| && Contains(clients[k].url, "/") && clients[k].focusable)
            ==> r.Focus?
    ensures action != DismissAction && canOpenWindow ==> r != NoAction
  {
    if action == DismissAction then NoAction
    else
      match FirstFocusable(clients, 0)
      case Some(i) => Focus(i)
      case None => if canOpenWindow then OpenWindow("/") else NoAction
  }

  function FirstFocusable(clients: seq<WindowClient>, from: nat): (r: Option<nat>)
    requires from <= |clients|
    ensures r.Some? ==> from <= r.value < |clients| && Contains(clients[r.value].url, "/") && clients[r.value].focusable
                        && forall k :: from <= k < r.value ==> !(Contains(clients[k].url, "/") && clients[k].focusable)
    ensures r.None? ==> forall k :: from <= k < |clients| ==> !(Contains(clients[k].url, "/") && clients[k].focusable)
    decreases |clients| - from
  {
    if from == |clients| then None
    else if Contains(clients[from].url, "/") && clients[from].focusable then Some(from)
    else FirstFocusable(clients, from + 1)
  }
}

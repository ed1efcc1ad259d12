/** The push-notification endpoints of
    backend/src/controllers/notificationController.js: look the driver(s) up,
    build one message, hand it to the messaging provider and report. The user
    store and the provider are parameters: their answers are inputs here. */
module Notifications {
  import opened Base

  datatype Driver = Driver(id: int, role: string, fcmToken: Value)

  /** What `User.findById` gives: a driver, nothing, or an exception. */
  datatype Lookup = FoundDriver(driver: Driver) | NoDriver | LookupError

  /** What the provider's `send` gives: a message id, or an exception. */
  datatype Delivery = Delivered(messageId: string) | DeliveryError

  /** What `sendEachForMulticast` gives: the two counts, or an exception. */
  datatype Batch = BatchDone(successCount: nat, failureCount: nat) | BatchError

  /** The provider message; `token` for one driver, `tokens` for many. The
      webpush options (urgency, vibration, icon, tag) are fixed and not kept. */
  datatype Message = Message(
    tokens: seq<Value>,
    title: Value,
    body: Value,
    data: map<string, Value>,
    link: Option<string>)

  /** The JSON answer; counts and message id appear only where the source
      puts them. */
  datatype Answer = Answer(
    status: nat,
    success: bool,
    message: string,
    messageId: Option<string>,
    counts: Option<(nat, nat)>)

  /** An answer and the message handed to the provider, if one was. */
  datatype Handled = Handled(answer: Answer, attempted: Option<Message>)

  const DriverTitle := "🚖 Nouvelle Mission"
  const DriverBody := "Une nouvelle mission vous attend"
  const BroadcastTitle := "🚖 Transport DanGE"
  const BroadcastBody := "Nouvelle notification"
  const ClickAction := "/missions"
  const SendFailedMsg := "Erreur lors de l'envoi de la notification"
  const DriverNotFoundMsg := "Chauffeur non trouvé"
  const TokenMissingMsg := "Token FCM manquant pour ce chauffeur"
  const SentMsg := "Notification envoyée avec succès"
  const NoDriversMsg := "Aucun chauffeur avec token FCM trouvé"
  const NoTokensMsg := "Aucun token FCM valide trouvé"
  const BroadcastFailedMsg := "Erreur lors de l'envoi des notifications"

  function Fail(status: nat, message: string): Answer
  {
    Answer(status, false, message, None, None)
  }

  /** `v || fallback`. */
  function OrDefault(v: Value, fallback: string): (r: Value)
    ensures Truthy(v) ==> r == v
    ensures !Truthy(v) ==> r == Str(fallback)
  {
    if Truthy(v) then v else Str(fallback)
  }

  /** `{...data, click_action: '/missions'}`; a missing `data` spreads nothing. */
  function WithClickAction(data: Option<map<string, Value>>): (d: map<string, Value>)
    ensures "click_action" in d && d["click_action"] == Str(ClickAction)
    ensures data.Some? ==> forall k :: k in data.value && k != "click_action" ==> k in d && d[k] == data.value[k]
    ensures forall k :: k in d && k != "click_action" ==> data.Some? && k in data.value
  {
    var base := if data.Some? then data.value else map[];
    base["click_action" := Str(ClickAction)]
  }

  /** `sendNotificationToDriver`. */
  function SendToDriver(title: Value, body: Value, data: Option<map<string, Value>>,
                        lookup: Lookup, delivery: Delivery): (h: Handled)
    ensures h.attempted.Some? <==> lookup.FoundDriver? && Truthy(lookup.driver.fcmToken)
    ensures h.answer.success <==> h.answer.status == 200
  {
    match lookup
    case LookupError => Handled(Fail(500, SendFailedMsg), None)
    case NoDriver => Handled(Fail(404, DriverNotFoundMsg), None)
    case FoundDriver(driver) =>
      if !Truthy(driver.fcmToken) then
        Handled(Fail(400, TokenMissingMsg), None)
      else
        var msg := Message([driver.fcmToken], OrDefault(title, DriverTitle), OrDefault(body, DriverBody),
                           WithClickAction(data), Some(ClickAction));
        match delivery
        case DeliveryError => Handled(Fail(500, SendFailedMsg), Some(msg))
        case Delivered(id) =>
          Handled(Answer(200, true, SentMsg, Some(id), None), Some(msg))
  }

  /** An unknown driver is 404 and a driver without a token 400, in that
      order, and in neither case is anything sent. */
  lemma SendToDriverRefusals(title: Value, body: Value, data: Option<map<string, Value>>,
                             lookup: Lookup, delivery: Delivery)
    ensures lookup.NoDriver? ==>
              SendToDriver(title, body, data, lookup, delivery) == Handled(Fail(404, DriverNotFoundMsg), None)
    ensures lookup.FoundDriver? && !Truthy(lookup.driver.fcmToken) ==>
              SendToDriver(title, body, data, lookup, delivery).answer.status == 400
    ensures SendToDriver(title, body, data, lookup, delivery).answer.status in {404, 400} ==>
              SendToDriver(title, body, data, lookup, delivery).attempted.None?
  {
  }

  /** The message goes to exactly the driver's token, carries the caller's
      title and body or the defaults, and the caller's data with
      `click_action` forced to `/missions`; a successful send answers 200 with
      the provider's message id. */
  lemma SendToDriverMessage(title: Value, body: Value, data: Option<map<string, Value>>,
                            driver: Driver, delivery: Delivery)
    requires Truthy(driver.fcmToken)
    ensures var h := SendToDriver(title, body, data, FoundDriver(driver), delivery);
      var m := h.attempted.value;
      m.tokens == [driver.fcmToken]
      && (Truthy(title) ==> m.title == title) && (!Truthy(title) ==> m.title == Str(DriverTitle))
      && (Truthy(body) ==> m.body == body) && (!Truthy(body) ==> m.body == Str(DriverBody))
      && m.data["click_action"] == Str(ClickAction)
      && (delivery.Delivered? ==> h.answer.status == 200 && h.answer.messageId == Some(delivery.messageId))
      && (delivery.DeliveryError? ==> h.answer.status == 500 && !h.answer.success)
  {
  }

  /** The caller's `click_action` never survives the merge. */
  lemma ClickActionOverrides(data: map<string, Value>, v: Value)
    ensures WithClickAction(Some(data["click_action" := v]))["click_action"] == Str(ClickAction)
    ensures WithClickAction(Some(data["click_action" := v])) == WithClickAction(Some(data))
  {
  }

  /** `User.find({role: 'chauffeur', fcmToken: {$exists: true, $ne: null}})`. */
  function QueryDrivers(users: seq<Driver>): (ds: seq<Driver>)
    ensures |ds| <= |users|
    ensures forall d :: d in ds <==> d in users && d.role == "chauffeur" && d.fcmToken != Null && d.fcmToken != Undefined
  {
    if users == [] then []
    else
      var rest := QueryDrivers(users[1..]);
      var d := users[0];
      if d.role == "chauffeur" && d.fcmToken != Null && d.fcmToken != Undefined then [d] + rest else rest
  }

  /** `drivers.map(d => d.fcmToken).filter(t => t)`. */
  function TruthyTokens(ds: seq<Driver>): (ts: seq<Value>)
    ensures |ts| <= |ds|
    ensures forall t :: t in ts ==> Truthy(t)
  {
    if ds == [] then []
    else if Truthy(ds[0].fcmToken) then [ds[0].fcmToken] + TruthyTokens(ds[1..])
    else TruthyTokens(ds[1..])
  }

  /** A token is sent to exactly when some driver carries it and it is
      truthy, and tokens keep the drivers' order. */
  lemma {:induction false} TruthyTokensSpec(ds: seq<Driver>, t: Value)
    ensures t in TruthyTokens(ds) <==> Truthy(t) && exists d :: d in ds && d.fcmToken == t
  {
    if ds != [] {
      TruthyTokensSpec(ds[1..], t);
      if exists d :: d in ds && d.fcmToken == t {
        var d :| d in ds && d.fcmToken == t;
        if d != ds[0] {
          assert d in ds[1..];
        }
      }
    }
  }

  lemma {:induction false} TruthyTokensAppend(a: seq<Driver>, b: seq<Driver>)
    ensures TruthyTokens(a + b) == TruthyTokens(a) + TruthyTokens(b)
  {
    if a != [] {
      assert (a + b)[0] == a[0] && (a + b)[1..] == a[1..] + b;
      TruthyTokensAppend(a[1..], b);
    } else {
      assert a + b == b;
    }
  }

  /** The summary message `"<successCount> notifications envoyées sur <n>"`. */
  function BatchSummary(successCount: nat, n: nat): string
  {
    NatToString(successCount) + " notifications envoyées sur " + NatToString(n)
  }

  /** `sendNotificationToAllDrivers`; `users` is `None` when the query fails. */
  function SendToAllDrivers(title: Value, body: Value, data: Option<map<string, Value>>,
                            users: Option<seq<Driver>>, batch: Batch): (h: Handled)
    ensures h.answer.success <==> h.answer.status == 200
    ensures h.attempted.Some? ==> h.attempted.value.tokens != []
  {
    if users.None? then Handled(Fail(500, BroadcastFailedMsg), None)
    else
      var drivers := QueryDrivers(users.value);
      if |drivers| == 0 then Handled(Fail(404, NoDriversMsg), None)
      else
        var tokens := TruthyTokens(drivers);
        if |tokens| == 0 then Handled(Fail(404, NoTokensMsg), None)
        else
          var msg := Message(tokens, OrDefault(title, BroadcastTitle), OrDefault(body, BroadcastBody),
                             WithClickAction(data), None);
          match batch
          case BatchError => Handled(Fail(500, BroadcastFailedMsg), Some(msg))
          case BatchDone(ok, ko) =>
            Handled(Answer(200, true, BatchSummary(ok, |tokens|), None, Some((ok, ko))), Some(msg))
  }

  /** No stored driver qualifies: 404. Drivers qualify but none has a truthy
      token (an empty string, say): also 404. Otherwise the message goes to
      every truthy token of a driver, with the broadcast defaults, and any
      provider report, partial failures included, is answered 200 with its
      counts. */
  lemma SendToAllDriversSpec(title: Value, body: Value, data: Option<map<string, Value>>,
                             users: seq<Driver>, batch: Batch)
    ensures var h := SendToAllDrivers(title, body, data, Some(users), batch);
      var drivers := QueryDrivers(users);
      (drivers == [] ==> h == Handled(Fail(404, NoDriversMsg), None))
      && (drivers != [] && TruthyTokens(drivers) == [] ==>
            h == Handled(Fail(404, NoTokensMsg), None))
      && (h.attempted.Some? ==>
            h.attempted.value.tokens == TruthyTokens(drivers)
            && (Truthy(title) ==> h.attempted.value.title == title)
            && (!Truthy(title) ==> h.attempted.value.title == Str(BroadcastTitle))
            && (Truthy(body) ==> h.attempted.value.body == body)
            && (!Truthy(body) ==> h.attempted.value.body == Str(BroadcastBody))
            && h.attempted.value.data["click_action"] == Str(ClickAction)
            && (data.Some? ==> forall k :: k in data.value && k != "click_action" ==>
                  k in h.attempted.value.data && h.attempted.value.data[k] == data.value[k]))
      && (TruthyTokens(drivers) != [] && batch.BatchDone? ==>
            h.answer.status == 200 && h.answer.counts == Some((batch.successCount, batch.failureCount))
            && h.answer.message == BatchSummary(batch.successCount, |TruthyTokens(drivers)|))
  {
    if QueryDrivers(users) == [] {
      assert TruthyTokens([]) == [];
    }
  }

  /** Each broadcast token belongs to a stored driver whose role is
      `chauffeur`. */
  lemma BroadcastTokensFromDrivers(users: seq<Driver>, t: Value)
    ensures t in TruthyTokens(QueryDrivers(users)) ==>
              Truthy(t) && exists d :: d in users && d.role == "chauffeur" && d.fcmToken == t
  {
    TruthyTokensSpec(QueryDrivers(users), t);
  }

  /** Any exception, from the store or the provider, is answered 500 with
      `success: false`. */
  lemma ErrorsAre500(title: Value, body: Value, data: Option<map<string, Value>>,
                     lookup: Lookup, delivery: Delivery, users: Option<seq<Driver>>)
    ensures lookup.LookupError? ==>
              SendToDriver(title, body, data, lookup, delivery).answer.status == 500
    ensures lookup.FoundDriver? && Truthy(lookup.driver.fcmToken) && delivery.DeliveryError? ==>
              SendToDriver(title, body, data, lookup, delivery).answer
                == Fail(500, SendFailedMsg)
    ensures users.None? ==> !SendToAllDrivers(title, body, data, users, BatchError).answer.success
    ensures users.Some? && TruthyTokens(QueryDrivers(users.value)) != [] ==>
              SendToAllDrivers(title, body, data, users, BatchError).answer
                == Fail(500, BroadcastFailedMsg)
  {
    if users.Some? && TruthyTokens(QueryDrivers(users.value)) != [] {
      assert QueryDrivers(users.value) != [];
    }
  }
}

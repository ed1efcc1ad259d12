/** The geolocation router of backend/src/routes/geolocation.js: every route
    sits behind `verifyToken`; each handler checks the caller and then asks
    the location store for one operation. The store is outside the model: its
    availability and the position it finds are inputs. */
module Geolocation {
  import opened Base
  import opened Http
  import opened JsNumbers
  import Auth

  datatype Position = Position(
    chauffeur_id: Option<int>,
    latitude: Value,
    longitude: Value,
    accuracy: Option<JsNumber>,
    speed: Option<Value>,
    heading: Option<Value>,
    is_active: bool)

  datatype GeoRoute =
    | UpdatePosition
    | ActivePositions
    | ChauffeurPosition(id: string)
    | PositionHistory(id: string)
    | Disconnect

  /** The store operation a handler asks for. */
  datatype StoreCall =
    | Create(position: Position)
    | GetAllActive
    | GetLatest(idParam: string)
    | GetHistory(historyId: string, limit: int)
    | SetInactive(chauffeurId: Option<int>)

  datatype Emission = Emission(event: string, chauffeurId: Option<int>)

  /** `Served`: 200 with what the store returned. */
  datatype Answer = Refused(status: nat, error: string) | Served

  datatype GeoResult = GeoResult(answer: Answer, call: Option<StoreCall>, emitted: Option<Emission>)

  const CoordinatesRequired := "Latitude et longitude requises"
  const DriversOnly := "Réservé aux chauffeurs"
  const SecretariesOnly := "Réservé aux secrétaires"
  const NotAuthorized := "Accès non autorisé"
  const NoPosition := "Aucune position trouvée"
  const ServerError := "Erreur serveur"
  const UpdateEvent := "geolocation:update"
  const OfflineEvent := "geolocation:chauffeur-offline"
  const DefaultHistoryLimit := 50

  function Refuse(status: nat, error: string): GeoResult
  {
    GeoResult(Refused(status, error), None, None)
  }

  /** `x ? f(x) : null` */
  function IfTruthy(v: Value): Option<Value>
  {
    if Truthy(v) then Some(v) else None
  }

  /** The row `/update` asks the store to create. */
  function NewPosition(caller: Claims, body: map<string, Value>): (p: Position)
    ensures p.chauffeur_id == caller.id && p.is_active
    ensures p.accuracy.None? <==> !Truthy(Field(body, "accuracy"))
  {
    var accuracy := Field(body, "accuracy");
    Position(caller.id, Field(body, "latitude"), Field(body, "longitude"),
             if Truthy(accuracy) then Some(ParseIntValue(accuracy)) else None,
             IfTruthy(Field(body, "speed")), IfTruthy(Field(body, "heading")), true)
  }

  /** `parseInt(req.query.limit) || 50` */
  function HistoryLimit(limit: Value): (n: int)
    ensures n != 0
  {
    match ParseIntValue(limit)
    case NaN => DefaultHistoryLimit
    case Int(i) => if i == 0 then DefaultHistoryLimit else i
  }

  /** The handler behind the token check; `storeUp` says whether the store
      answers, `latest` is the position it finds for `/chauffeur/:id`. */
  function Handler(route: GeoRoute, caller: Claims, body: map<string, Value>, query: map<string, Value>,
                   storeUp: bool, latest: Option<Position>): (r: GeoResult)
    ensures r.emitted.Some? ==> r.emitted.value.chauffeurId == caller.id && storeUp
  {
    match route
    case UpdatePosition =>
      if !Truthy(Field(body, "latitude")) || !Truthy(Field(body, "longitude")) then
        Refuse(400, CoordinatesRequired)
      else if caller.role != Chauffeur then Refuse(403, DriversOnly)
      else
        var call := Some(Create(NewPosition(caller, body)));
        if !storeUp then GeoResult(Refused(500, ServerError), call, None)
        else GeoResult(Served, call, Some(Emission(UpdateEvent, caller.id)))
    case ActivePositions =>
      if caller.role != Secretaire then Refuse(403, SecretariesOnly)
      else if !storeUp then GeoResult(Refused(500, ServerError), Some(GetAllActive), None)
      else GeoResult(Served, Some(GetAllActive), None)
    case ChauffeurPosition(id) =>
      if caller.role != Secretaire && !(caller.id.Some? && ParseInt(id) == Int(caller.id.value)) then
        Refuse(403, NotAuthorized)
      else if !storeUp then GeoResult(Refused(500, ServerError), Some(GetLatest(id)), None)
      else if latest.None? then GeoResult(Refused(404, NoPosition), Some(GetLatest(id)), None)
      else GeoResult(Served, Some(GetLatest(id)), None)
    case PositionHistory(id) =>
      var limit := HistoryLimit(Field(query, "limit"));
      if caller.role != Secretaire then Refuse(403, SecretariesOnly)
      else if !storeUp then GeoResult(Refused(500, ServerError), Some(GetHistory(id, limit)), None)
      else GeoResult(Served, Some(GetHistory(id, limit)), None)
    case Disconnect =>
      if caller.role != Chauffeur then Refuse(403, DriversOnly)
      else if !storeUp then GeoResult(Refused(500, ServerError), Some(SetInactive(caller.id)), None)
      else GeoResult(Served, Some(SetInactive(caller.id)), Some(Emission(OfflineEvent, caller.id)))
  }

  /** `router.use(verifyToken)` in front of every handler. */
  function Handle(route: GeoRoute, req: Request, verify: Verifier, body: map<string, Value>,
                  query: map<string, Value>, storeUp: bool, latest: Option<Position>): GeoResult
  {
    var st := Auth.VerifyToken(req, verify);
    match st.outcome
    case Next => Handler(route, st.req.user.value, body, query, storeUp, latest)
    case Respond(reply) => Refuse(reply.status, if reply.body.Error? then reply.body.text else "")
    case Throw => Refuse(500, ServerError)
  }

  /** Every route requires a verified token: without one the answer is 401 and
      the store is not touched; with one the handler runs on its claims. */
  lemma EveryRouteNeedsToken(route: GeoRoute, req: Request, verify: Verifier, body: map<string, Value>,
                             query: map<string, Value>, storeUp: bool, latest: Option<Position>)
    ensures var r := Handle(route, req, verify, body, query, storeUp, latest);
      (TokenClaims(req, verify).None? ==> r.answer.Refused? && r.answer.status == 401 && r.call.None?)
      && (TokenClaims(req, verify).Some? ==>
            r == Handler(route, TokenClaims(req, verify).value, body, query, storeUp, latest))
  {
    Auth.VerifyTokenPassesIff(req, verify);
  }

  /** `/update`: a falsy latitude or longitude (0 included) is 400 before the
      role is looked at; only a driver records a position, always under its
      own id, never an id from the body, with falsy accuracy, speed and
      heading stored as null. */
  lemma UpdateSpec(caller: Claims, body: map<string, Value>, query: map<string, Value>,
                   storeUp: bool, latest: Option<Position>)
    ensures var r := Handler(UpdatePosition, caller, body, query, storeUp, latest);
      (!Truthy(Field(body, "latitude")) ==> r == Refuse(400, CoordinatesRequired))
      && (!Truthy(Field(body, "longitude")) ==> r == Refuse(400, CoordinatesRequired))
      && (r.call.Some? <==>
            Truthy(Field(body, "latitude")) && Truthy(Field(body, "longitude")) && caller.role == Chauffeur)
      && (r.call.Some? ==>
            r.call.value.Create? && r.call.value.position.chauffeur_id == caller.id
            && r.call.value.position.is_active
            && (r.call.value.position.speed.None? <==> !Truthy(Field(body, "speed")))
            && (r.call.value.position.heading.None? <==> !Truthy(Field(body, "heading")))
            && (r.call.value.position.accuracy.None? <==> !Truthy(Field(body, "accuracy"))))
  {
  }

  /** `/chauffeur/:id` is allowed exactly for a secretary or for the driver
      whose own id the parameter parses to; a missing position is 404. */
  lemma ChauffeurPositionAccess(caller: Claims, id: string, body: map<string, Value>,
                                query: map<string, Value>, latest: Option<Position>)
    ensures var r := Handler(ChauffeurPosition(id), caller, body, query, true, latest);
      (r.answer == Refused(403, NotAuthorized) <==>
         caller.role != Secretaire && !(caller.id.Some? && ParseInt(id) == Int(caller.id.value)))
      && (r.answer != Refused(403, NotAuthorized) ==>
            r.call == Some(GetLatest(id)) && (r.answer == Refused(404, NoPosition) <==> latest.None?))
  {
  }

  /** A driver may read its own position by its decimal id. */
  lemma DriverReadsOwnPosition(caller: Claims, n: int, body: map<string, Value>,
                               query: map<string, Value>, latest: Option<Position>)
    requires caller.id == Some(n) && -ExponentFrom < n < ExponentFrom
    ensures Handler(ChauffeurPosition(IntToString(n)), caller, body, query, true, latest).answer
              != Refused(403, NotAuthorized)
  {
    ParseIntRoundTrip(n);
  }

  /** `/active` and `/history/:id` are for secretaries only; the history limit
      is the parsed `limit`, or 50 when that is `NaN` or 0. */
  lemma SecretaryRoutes(caller: Claims, id: string, body: map<string, Value>,
                        query: map<string, Value>, storeUp: bool, latest: Option<Position>)
    ensures var a := Handler(ActivePositions, caller, body, query, storeUp, latest);
      var h := Handler(PositionHistory(id), caller, body, query, storeUp, latest);
      (a.call.Some? <==> caller.role == Secretaire) && (h.call.Some? <==> caller.role == Secretaire)
      && (caller.role == Secretaire ==>
            h.call.value.limit == (match ParseIntValue(Field(query, "limit"))
                                   case NaN => 50
                                   case Int(i) => if i == 0 then 50 else i))
  {
  }

  /** No `limit` at all gives 50. */
  lemma HistoryDefaultLimit()
    ensures HistoryLimit(Undefined) == 50
  {
    ParseIntOfNothing();
  }

  /** `/disconnect` is for drivers only and deactivates the caller's own
      positions, announcing that same id. */
  lemma DisconnectSpec(caller: Claims, body: map<string, Value>, query: map<string, Value>,
                       storeUp: bool, latest: Option<Position>)
    ensures var r := Handler(Disconnect, caller, body, query, storeUp, latest);
      (r.call.Some? <==> caller.role == Chauffeur)
      && (r.call.Some? ==> r.call.value == SetInactive(caller.id))
      && (r.emitted.Some? <==> caller.role == Chauffeur && storeUp)
      && (r.emitted.Some? ==> r.emitted.value == Emission(OfflineEvent, caller.id))
  {
  }
}

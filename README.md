# Transport DanGE — a Dafny model of the dispatch core

Transport DanGE is a taxi dispatch application. It has three parts:

- An Express back end that authenticates dispatchers ("secrétaires") and drivers ("chauffeurs") with bearer tokens. It validates mission bodies, routes mission actions by role, records driver positions and pushes Firebase notifications.
- A dispatcher front end with a planning view, a dashboard, a mission table, a creation form and a live map of drivers.
- A driver front end: a mission list and dashboard that follow `mission:*` socket events, and a service worker that caches the app and shows push notifications.

This project models that core in Dafny and proves what each piece promises:

- Middleware is modelled as functions from a request to a `Step`. A step calls `next`, answers with a status, or throws.
- Route tables are modelled as data. Dispatch picks the first matching route and runs its guards in order. As in Express's default router, literal segments match without regard to ASCII case and `HEAD` requests use the `GET` routes.
- The controllers are functions of the looked-up records and of the outcome of the Firebase call. Both are parameters.
- The helpers and reducers of the front ends are functions on `seq<Mission>`.
- Components that hold state are classes. Their fields are the React state, and their methods are the event handlers.
- The two socket services are classes over a modelled socket.io client. A ghost predicate `Synced` relates the service's listener registry to the handlers actually attached to the socket.
- The service worker's cache storage is a class. It is kept `Valid` by `install`/`activate`/`fetch`.

The JSON web token check is a finite map from accepted tokens to their claims (`Http.Verifier`). The database, the clock, the Firebase Admin SDK and the network are also parameters.

## Model

| member | source | states |
|---|---|---|
| MissionModel.Parse | frontend-secretaire/src/utils/missionHelpers.js:45-82 | every `statut` text denotes exactly one status, and that status's text is the text read |
| MissionModel.TextInjective | frontend-secretaire/src/utils/missionHelpers.js:9-12 | comparing `statut` texts with `===` is comparing statuses |
| MissionModel.FilterIn | frontend-secretaire/src/utils/missionHelpers.js:35-40 | `filter(m => S.includes(m.statut))` keeps exactly the missions whose status is in S |
| MissionModel.CountStatusOccurrences | frontend-secretaire/src/utils/missionHelpers.js:9-12 | counting one status is the multiplicity of that status in the list of statuses |
| MissionModel.FilterInAppend | frontend-secretaire/src/utils/missionHelpers.js:27-40 | status filters keep the list order (they distribute over concatenation) |
| MissionModel.CountInUnion | frontend-secretaire/src/utils/missionHelpers.js:17-22 | counts over disjoint status sets add up |
| MissionModel.CountInFull | frontend-secretaire/src/components/dashboard/StatCards.jsx:10-13 | a count equals the list length iff every mission's status is in the set |
| MissionModel.CountInMono | frontend-secretaire/src/utils/missionHelpers.js:17-22 | a count grows with the status set |
| Base.NatToStringRoundTrip | backend/src/middleware/validation.js:20-21 | the decimal text of a number reads back as that number |
| Base.BlankIff | backend/src/middleware/validation.js:16-19 | `trim()` leaves nothing exactly when every character is ECMAScript white space |
| Base.TrimEndOfTrimmed | backend/src/middleware/validation.js:48-51 | trimming the end of a left-trimmed non-empty string never empties it |
| StringOrder.LocaleCompare | frontend-secretaire/src/utils/missionHelpers.js:100-111 | `localeCompare` is negative, zero or positive exactly as the collation orders the two texts, and zero only for equal texts |
| StringOrder.SameLayoutAgree | frontend-secretaire/src/components/Planning.jsx:124 | on two texts of one layout (zero-padded dates, `HH:MM` times) the collation and the code order of `sort()` agree |
| StringOrder.UnpaddedHoursDisagree | backend/src/middleware/validation.js:15 | on an unpadded hour, which the time check accepts, they part: the collation puts "1:00" before "10:00", the code order after it |
| StringOrder.LeTotal | frontend-secretaire/src/components/Planning.jsx:124 | both string orders (code order for `sort()`, collation for `localeCompare`) are total |
| StringOrder.LeTransitive | frontend-secretaire/src/components/Planning.jsx:124 | both string orders are transitive |
| StringOrder.LeAntisymmetric | frontend-secretaire/src/components/Planning.jsx:124 | both string orders are antisymmetric, so sorted distinct keys are strictly increasing |
| Sorting.SortBy | frontend-secretaire/src/utils/missionHelpers.js:103-111 | the sorted list is a permutation of the input |
| Sorting.SortBySorted | frontend-secretaire/src/utils/missionHelpers.js:103-111 | with a total transitive comparator the result is ordered |
| Http.BearerShape | backend/src/middleware/auth.js:10-14 | the token taken after "Bearer " is `t` exactly when the header is `"Bearer " + t` |
| Auth.VerifyToken | backend/src/middleware/auth.js:6-27 | the guard either calls next or answers 401 with one of its two messages, and leaves the request untouched unless it calls next |
| Auth.VerifyTokenMissing | backend/src/middleware/auth.js:10-12 | a missing header or one not starting with "Bearer " gets 401 "Token non fourni" |
| Auth.VerifyTokenSpec | backend/src/middleware/auth.js:14-22 | a bearer token that verifies sets `req.user` to its claims and calls next; one that does not verify gets 401 "Token invalide" |
| Auth.VerifyTokenPassesIff | backend/src/middleware/auth.js:6-27 | next is called iff the header carries a verifying token, and then `req.user` holds its claims |
| Auth.RequireRole | backend/src/middleware/auth.js:30-43 | a role guard never changes the request and throws exactly when no user was set |
| Auth.RequireSecretaire | backend/src/middleware/auth.js:30-35 | the dispatcher guard never changes the request |
| Auth.RequireChauffeur | backend/src/middleware/auth.js:38-43 | the driver guard never changes the request |
| Auth.RequireSecretaireIff | backend/src/middleware/auth.js:30-35 | it passes iff the role is "secretaire", and otherwise answers 403 with its message |
| Auth.RequireChauffeurIff | backend/src/middleware/auth.js:38-43 | it passes iff the role is "chauffeur", and otherwise answers 403 with its message |
| Auth.RoleGuardsExclusive | backend/src/middleware/auth.js:30-43 | no request passes both role guards |
| Auth.FindById | backend/src/middleware/auth.js:49-52 | a lookup fails only when the store is down, and finds only the record stored under the id |
| Auth.LoadUserData | backend/src/middleware/auth.js:46-60 | loading the profile either calls next or answers 500, and keeps the header and claims |
| Auth.LoadUserDataStores | backend/src/middleware/auth.js:48-55 | with the store up, dispatchers are looked up among users and drivers among drivers, and the record found (or none) becomes `req.userData`; other roles pass untouched |
| AdminAuth.RequireAdmin | backend/src/middleware/adminAuth.js:4-31 | the admin guard changes the request only when it calls next |
| AdminAuth.RequireAdminSpec | backend/src/middleware/adminAuth.js:6-26 | no header gets 401, a non-admin token 403, an invalid token 401, an admin token sets the user and calls next |
| AdminAuth.RequireAdminRefinesVerifyToken | backend/src/middleware/adminAuth.js:4-31 | whatever passes the admin guard passes `verifyToken`, and whatever `verifyToken` refuses the admin guard refuses |
| Validation.ValidatorText | backend/src/middleware/validation.js:13-24 | a validator sees a string as itself and null or a missing field as "" |
| Validation.TwoDigits | backend/src/middleware/validation.js:15 | a number below 100 is written as two digits |
| Validation.HeureAcceptsTimes | backend/src/middleware/validation.js:15 | the `heure_prevue` pattern accepts every time 0:00–23:59, with one- or two-digit hours |
| Validation.TwoDigitsOf | backend/src/middleware/validation.js:15 | a two-digit text is the two-digit writing of its value |
| Validation.HourOf | backend/src/middleware/validation.js:15 | an hour matching `[0-1]?[0-9]` or `2[0-3]` is the writing of an hour below 24 |
| Validation.MinuteOf | backend/src/middleware/validation.js:15 | a minute matching `[0-5][0-9]` is the two-digit writing of a minute below 60 |
| Validation.HeureOnlyTimes | backend/src/middleware/validation.js:15 | everything the pattern accepts is such a time (the converse) |
| Validation.HeureAcceptsExamples | backend/src/middleware/validation.js:15 | "7:05", "07:05" and "23:59" are accepted |
| Validation.HeureRejects24 | backend/src/middleware/validation.js:15 | "24:00" is refused |
| Validation.HeureRejects60 | backend/src/middleware/validation.js:15 | "12:60" is refused |
| Validation.HeureRejectsShortMinute | backend/src/middleware/validation.js:15 | a one-digit minute is refused |
| Validation.IntTextOfNumber | backend/src/middleware/validation.js:20-21 | an integer id written without an exponent (magnitude below 10^21) passes `isInt` |
| Validation.RuleError | backend/src/middleware/validation.js:13-65 | a rule records its own field and message exactly when the field is not skipped by `optional()` and fails the check |
| Validation.ChainErrors | backend/src/middleware/validation.js:4-10 | every recorded error comes from a failing rule, and there are at most as many errors as rules |
| Validation.ErrorsEmptyIff | backend/src/middleware/validation.js:4-10 | no error is recorded iff every rule is satisfied |
| Validation.Validate | backend/src/middleware/validation.js:4-10 | next iff there are no errors, otherwise 400 with the whole list |
| Validation.NotBlankIff | backend/src/middleware/validation.js:16-19 | `trim().notEmpty()` holds iff some character is not white space |
| Validation.MissionRuleAt | backend/src/middleware/validation.js:13-38 | each mission rule passes iff its field meets its condition |
| Validation.MissionRulesMeaning | backend/src/middleware/validation.js:13-38 | all mission rules pass iff all field conditions hold |
| Validation.ValidateMissionIff | backend/src/middleware/validation.js:13-24 | a creation body passes iff date, time, type, client and both addresses are valid and the optional ids are integers |
| Validation.ValidateMissionUpdateIff | backend/src/middleware/validation.js:27-38 | an update body passes iff every field present is valid |
| Validation.UpdateWeakerThanCreate | backend/src/middleware/validation.js:13-38 | the empty update passes, and every valid creation body is a valid update |
| Validation.ValidateCommentaireIff | backend/src/middleware/validation.js:48-51 | a comment passes iff it is not blank, and otherwise gets 400 with its message |
| Validation.ValidateFcmTokenIff | backend/src/middleware/validation.js:54-57 | an FCM token passes iff it is not blank |
| Validation.ValidateLoginIff | backend/src/middleware/validation.js:41-45 | a login passes iff the username is not blank and the password is non-empty |
| Validation.ValidateDateParamsIff | backend/src/middleware/validation.js:60-65 | date query parameters pass iff each one present is a date |
| MissionRoutes.FirstMatchFrom | backend/src/routes/missions.js:2-31 | the search from a position returns the first matching route at or after it; literals match without regard to ASCII case and `HEAD` matches the `GET` routes |
| MissionRoutes.Resolve | backend/src/routes/missions.js:9-31 | the router answers with the first route of the table matching verb and path, or none |
| MissionRoutes.GuardAdmits | backend/src/routes/missions.js:19-31 | a guard after the token check leaves the request alone and passes iff the caller's role/body admits it |
| MissionRoutes.RunGuardsAfterToken | backend/src/routes/missions.js:19-31 | a guard chain passes iff every guard admits the request |
| MissionRoutes.CreationRoutesWellShaped | backend/src/routes/missions.js:19-22 | create/list/modify routes start with the token check, then the dispatcher guard, then validation |
| MissionRoutes.SendingRoutesWellShaped | backend/src/routes/missions.js:23-25 | delete/send/send-by-date routes have the same shape |
| MissionRoutes.OpenRoutesWellShaped | backend/src/routes/missions.js:9-31 | migrate, get and comment routes are well shaped |
| MissionRoutes.DriverRoutesWellShaped | backend/src/routes/missions.js:28-30 | confirm/pick-up/finish start with the token check and then the driver guard |
| MissionRoutes.TableWellShaped | backend/src/routes/missions.js:9-31 | every route of the table is well shaped |
| MissionRoutes.DispatchNeedsToken | backend/src/routes/missions.js:19-31 | every action except migrate is reached only with a verifying token |
| MissionRoutes.DispatchNeedsRole | backend/src/routes/missions.js:19-30 | a role-gated action is reached only by a caller of that role |
| MissionRoutes.DispatchRoleActions | backend/src/routes/missions.js:19-30 | the actions reached by each role are the ones in its column |
| MissionRoutes.DispatchAdmits | backend/src/routes/missions.js:19-31 | a request with a verifying token, the right role and a valid body reaches its action |
| MissionRoutes.DispatchTokenFirst | backend/src/routes/missions.js:19-31 | without a verifying token the answer is 401 whatever the body |
| MissionRoutes.RoleRefusal | backend/src/middleware/auth.js:30-43 | a chain whose role guard refuses answers 403 |
| MissionRoutes.DispatchRoleBeforeBody | backend/src/routes/missions.js:19-30 | the wrong role gets 403 whatever the body |
| MissionRoutes.DispatchBodyLast | backend/src/routes/missions.js:19-31 | a 400 from validation comes only after the token and role were accepted |
| MissionRoutes.MigrateShadowsObtenir | backend/src/routes/missions.js:9-21 | on `GET` or `HEAD`, every id whose lower-case form is `migrate` reaches the migration with no guard, and every other non-empty id reaches the mission lookup |
| MissionRoutes.RoutingIgnoresCase | backend/src/routes/missions.js:2 | the router is case-insensitive: a path resolves to the same route as its lower-case form, so `GET /MIGRATE` is the migration |
| MissionRoutes.HeadIsGet | backend/src/routes/missions.js:9-21 | a `HEAD` request resolves to the route the same `GET` request resolves to |
| MissionRoutes.SameMatchesSameRoute | backend/src/routes/missions.js:9-31 | two requests that every route matches alike resolve to the same route |
| MissionRoutes.RoleSetsDisjoint | backend/src/routes/missions.js:19-30 | no route requires both roles |
| Notifications.OrDefault | backend/src/controllers/notificationController.js:29-30 | a falsy title or body is replaced by its default, and a truthy one is kept |
| Notifications.WithClickAction | backend/src/controllers/notificationController.js:32-35 | the data sent is the caller's data with `click_action` forced to the driver app |
| Notifications.SendToDriver | backend/src/controllers/notificationController.js:4-72 | a message is sent iff the driver exists and has a truthy token; success iff status 200 |
| Notifications.SendToDriverRefusals | backend/src/controllers/notificationController.js:12-24 | no driver gives 404, no token gives 400, and neither sends anything |
| Notifications.SendToDriverMessage | backend/src/controllers/notificationController.js:26-63 | the message carries the driver's token, the defaulted title/body and the click action; a delivery gives 200 with its id |
| Notifications.ClickActionOverrides | backend/src/controllers/notificationController.js:32-35 | a caller-supplied `click_action` is ignored |
| Notifications.QueryDrivers | backend/src/controllers/notificationController.js:80-83 | the query keeps exactly the drivers whose token is not null |
| Notifications.TruthyTokens | backend/src/controllers/notificationController.js:92 | the token list holds only truthy tokens |
| Notifications.TruthyTokensSpec | backend/src/controllers/notificationController.js:92 | a token is listed iff it is truthy and some driver holds it |
| Notifications.TruthyTokensAppend | backend/src/controllers/notificationController.js:92 | the token list keeps driver order |
| Notifications.SendToAllDrivers | backend/src/controllers/notificationController.js:74-136 | success iff status 200, and a batch is only sent with at least one token |
| Notifications.SendToAllDriversSpec | backend/src/controllers/notificationController.js:85-127 | no drivers or no tokens give 404 without sending; otherwise one multicast to every truthy token, with the title and body as given or their broadcast defaults when falsy, and the caller's data with `click_action` forced, answered with the success and failure counts |
| Notifications.BroadcastTokensFromDrivers | backend/src/controllers/notificationController.js:80-92 | every broadcast token belongs to a driver of role "chauffeur" |
| Notifications.ErrorsAre500 | backend/src/controllers/notificationController.js:64-71 | a failing lookup or delivery answers 500 |
| Geolocation.NewPosition | backend/src/routes/geolocation.js:21-29 | the stored position belongs to the caller, is active, and has an accuracy iff one was given |
| Geolocation.HistoryLimit | backend/src/routes/geolocation.js:89 | the history limit is never 0: a NaN or zero parse falls back to 50 |
| Geolocation.Handler | backend/src/routes/geolocation.js:8-121 | a position is broadcast only for the caller and only when it was stored |
| Geolocation.EveryRouteNeedsToken | backend/src/routes/geolocation.js:6 | every geolocation route answers 401 without a verifying token |
| Geolocation.UpdateSpec | backend/src/routes/geolocation.js:8-49 | a falsy latitude or a falsy longitude gives 400; a position is stored iff both are truthy and the caller is a driver, and it is the caller's, active, with each optional field absent iff it was falsy |
| Geolocation.ChauffeurPositionAccess | backend/src/routes/geolocation.js:65-84 | a driver may read only the position whose id parses to their own; no position gives 404 |
| Geolocation.DriverReadsOwnPosition | backend/src/routes/geolocation.js:65-84 | a driver reading their own id is never refused |
| Geolocation.SecretaryRoutes | backend/src/routes/geolocation.js:51-101 | the active list and the history are read only for dispatchers, with the parsed limit, or 50 when it is NaN or 0 |
| Geolocation.HistoryDefaultLimit | backend/src/routes/geolocation.js:89 | without a limit, 50 positions are read |
| Geolocation.DisconnectSpec | backend/src/routes/geolocation.js:103-121 | only drivers may disconnect; their own positions are deactivated, and the offline event with their id is broadcast iff the store worked |
| JsNumbers.DigitPrefix | backend/src/routes/geolocation.js:69 | the leading digits of a text, up to the first non-digit |
| JsNumbers.HexDigitValue | backend/src/routes/geolocation.js:69 | a hexadecimal digit has a value below 16 |
| JsNumbers.HexPrefix | backend/src/routes/geolocation.js:69 | the longest prefix of hexadecimal digits, read after `0x` |
| JsNumbers.ParseMagnitude | backend/src/routes/geolocation.js:69 | an unsigned parse is never negative |
| JsNumbers.ParseInt | backend/src/routes/geolocation.js:69 | `parseInt` of a blank text is NaN |
| JsNumbers.ToNumber | frontend/src/components/Secretaire/CreerMission.jsx:72 | `Number` of a blank text is 0 |
| JsNumbers.ToNumberRoundTrip | frontend/src/components/Secretaire/CreerMission.jsx:72 | `Number(String(n)) == n` for every integer written without an exponent |
| JsNumbers.DigitPrefixOfDigits | backend/src/routes/geolocation.js:69 | an all-digit text is its own digit prefix |
| JsNumbers.ParseIntRoundTrip | backend/src/routes/geolocation.js:69 | `parseInt(String(n)) == n` for every integer written without an exponent |
| JsNumbers.ParseIntOfNothing | backend/src/routes/geolocation.js:89 | `parseInt(undefined)` and `parseInt(null)` are NaN |
| MissionHelpers.CountMissionsByStatus | frontend-secretaire/src/utils/missionHelpers.js:9-12 | a non-array gives 0, otherwise the number of missions with that status |
| MissionHelpers.FilterMissionsEnCours | frontend-secretaire/src/utils/missionHelpers.js:35-40 | keeps exactly the sent, confirmed and picked-up missions; a non-array gives [] |
| MissionHelpers.CountMissionsEnCours | frontend-secretaire/src/utils/missionHelpers.js:17-22 | counts what the in-progress filter keeps |
| MissionHelpers.EnCoursIsThreeCounts | frontend-secretaire/src/utils/missionHelpers.js:17-22 | the in-progress count is the sum of the three status counts |
| MissionHelpers.FilterMissionsEnAttente | frontend-secretaire/src/utils/missionHelpers.js:27-30 | keeps exactly the drafts; a non-array gives [] |
| MissionHelpers.EnAttenteKeepsOrder | frontend-secretaire/src/utils/missionHelpers.js:27-30 | the draft filter keeps order |
| MissionHelpers.StatusColor | frontend-secretaire/src/utils/missionHelpers.js:45-54 | the default colour is used exactly for unknown statuses |
| MissionHelpers.StatusLabel | frontend-secretaire/src/utils/missionHelpers.js:59-68 | an unknown status is shown as its own text |
| MissionHelpers.StatusIcon | frontend-secretaire/src/utils/missionHelpers.js:73-82 | the default icon is used exactly for unknown statuses |
| MissionHelpers.DisplayDistinguishesKnown | frontend-secretaire/src/utils/missionHelpers.js:45-82 | two different known statuses differ in colour, icon and label |
| MissionHelpers.ByDateTimeTotal | frontend-secretaire/src/utils/missionHelpers.js:103-111 | the date-then-time comparator is total |
| MissionHelpers.ByDateTimeTransitive | frontend-secretaire/src/utils/missionHelpers.js:103-111 | the comparator is transitive |
| MissionHelpers.ByDateTimePreorder | frontend-secretaire/src/utils/missionHelpers.js:103-111 | the comparator is a total preorder, as `sort` requires |
| MissionHelpers.SortMissionsByDateTime | frontend-secretaire/src/utils/missionHelpers.js:100-111 | a non-array gives []; otherwise a permutation sorted by date, then time |
| MissionHelpers.FindChauffeur | frontend-secretaire/src/utils/missionHelpers.js:123-130 | finds the first driver with the id, or proves there is none |
| Base.FirstWhere | frontend-secretaire/src/utils/missionHelpers.js:128 | `find`: the first element satisfying the test, or proof that none does |
| MissionHelpers.ChauffeurName | frontend-secretaire/src/utils/missionHelpers.js:116-130 | an unassigned mission shows "Non assigné", a driver id not in the list "Chauffeur inconnu", otherwise the first matching driver's `nom` |
| DateGroups.Select | frontend-secretaire/src/components/Planning.jsx:104-122 | the missions kept under one key, in order |
| DateGroups.Dropped | frontend-secretaire/src/components/Planning.jsx:104-122 | the number of missions left out of the grouping |
| DateGroups.PushSpec | frontend-secretaire/src/components/Planning.jsx:117-120 | adding a mission appends it to its key's group only |
| DateGroups.GroupedSpec | frontend-secretaire/src/components/Planning.jsx:104-122 | each group is exactly the kept missions with that key, in order, and a key exists iff its group is non-empty |
| DateGroups.SumSizesFrame | frontend-secretaire/src/components/Planning.jsx:104-122 | group sizes over a key list depend only on those keys |
| DateGroups.SumSizesGrow | frontend-secretaire/src/components/Planning.jsx:117-120 | a push grows the total size by one |
| DateGroups.GroupedSizes | frontend-secretaire/src/components/Planning.jsx:104-122 | dropped missions plus grouped missions are all missions |
| DateGroups.SortedKeys | frontend-secretaire/src/components/Planning.jsx:124 | the sorted keys are a permutation of the keys, in order |
| DateGroups.SortedKeysAreGroupKeys | frontend-chauffeur/src/components/ListeMissions.jsx:33 | the sorted keys are exactly the dates that have missions |
| DateGroups.GroupByDate | frontend-chauffeur/src/components/ListeMissions.jsx:24-31 | the accumulation loop builds the grouping the reduce defines |
| Planning.GetStatutInfo | frontend-secretaire/src/components/Planning.jsx:25-34 | an unknown status is shown as a draft, and only drafts and unknown statuses are |
| Planning.StatutLabelsDistinct | frontend-secretaire/src/components/Planning.jsx:25-34 | two different known statuses have different labels |
| Planning.FilterRange | frontend-secretaire/src/components/Planning.jsx:39-63 | today, tomorrow, and otherwise the next seven days |
| Planning.FilterRangeBounds | frontend-secretaire/src/components/Planning.jsx:39-63 | the range starts today or tomorrow, never ends before it starts, and spans at most seven days |
| Planning.MissionsByDateSpec | frontend-secretaire/src/components/Planning.jsx:104-124 | each date group holds exactly the missions whose valid date is that key, missions with an invalid date are the only ones left out, and the sorted dates are exactly the group keys |
| Planning.BrouillonCount | frontend-secretaire/src/components/Planning.jsx:127 | the draft count is zero iff there are no drafts |
| Planning.SendAllButton | frontend-secretaire/src/components/Planning.jsx:171-202 | a date shows "send all" iff it has a draft, with the number of its drafts |
| Planning.SendAllButtonCountsDrafts | frontend-secretaire/src/components/Planning.jsx:171-202 | the button of a date shows iff the list holds a draft with a valid date equal to it, and the count it shows is the number of drafts among the list's missions of that date |
| Planning.CardButtons | frontend-secretaire/src/components/Planning.jsx:210-299 | delete always; send iff draft; edit iff not picked up or finished |
| Planning.CardButtonsOrder | frontend-secretaire/src/components/Planning.jsx:210-299 | sendable missions are editable, and finished ones can only be deleted |
| Planning.SendingFlags.constructor | frontend-secretaire/src/components/Planning.jsx:65-76 | no mission is being sent at first |
| Planning.SendingFlags.StartSending | frontend-secretaire/src/components/Planning.jsx:65-76 | sending a mission disables its button |
| Planning.SendingFlags.FinishSending | frontend-secretaire/src/components/Planning.jsx:65-76 | finishing re-enables it and reloads iff the send succeeded |
| MissionLists.FindIndex | frontend-secretaire/src/pages/Dashboard.jsx:104-119 | the first index with that id, or none |
| MissionLists.Upsert | frontend-secretaire/src/pages/Dashboard.jsx:104-119 | a known id keeps the length; a new mission is put first |
| MissionLists.UpsertReplacesFirst | frontend-secretaire/src/pages/Dashboard.jsx:104-119 | a known mission replaces the first entry with its id and nothing else |
| MissionLists.UpsertIdempotent | frontend-secretaire/src/pages/Dashboard.jsx:104-119 | a repeated event changes nothing more |
| MissionLists.RemoveId | frontend-secretaire/src/pages/Dashboard.jsx:126-132 | keeps exactly the missions with another id |
| MissionLists.RemoveIdAppend | frontend-secretaire/src/pages/Dashboard.jsx:126-132 | removal keeps order |
| MissionLists.RemoveIdAbsent | frontend-secretaire/src/pages/Dashboard.jsx:126-132 | removing an absent id changes nothing |
| MissionLists.RemoveIdReplaced | frontend-secretaire/src/pages/Dashboard.jsx:104-132 | a replaced entry with the removed id leaves the same list |
| MissionLists.DeleteAfterUpsert | frontend-secretaire/src/pages/Dashboard.jsx:104-132 | an update followed by a deletion is the deletion |
| MissionLists.UpsertForDriver | frontend-chauffeur/src/pages/Missions.jsx:94-115 | other drivers' missions are ignored; own missions are updated, or added first when sent |
| MissionLists.DriverListGainsOnlyOwnSent | frontend-chauffeur/src/pages/Missions.jsx:94-115 | the driver's list grows only by their own sent mission |
| SecretaireDashboard.Route | frontend-secretaire/src/pages/Dashboard.jsx:80-90 | each subscribed event reaches its handler, and the other events reach none |
| SecretaireDashboard.SetupRouted | frontend-secretaire/src/pages/Dashboard.jsx:80-90 | every subscription is routed as registered |
| SecretaireDashboard.TeardownMirrorsSetup | frontend-secretaire/src/pages/Dashboard.jsx:92-102 | the cleanup removes exactly the subscriptions made |
| SecretaireDashboard.SentMessage | frontend-secretaire/src/pages/Dashboard.jsx:121-124 | the snackbar text is the count in decimal, which reads back as the count, followed by " mission(s) envoyée(s)" |
| SecretaireDashboard.DashboardPage.constructor | frontend-secretaire/src/pages/Dashboard.jsx:80-132 | the page starts empty |
| SecretaireDashboard.DashboardPage.OnMissionUpdate | frontend-secretaire/src/pages/Dashboard.jsx:104-119 | upserts the mission and refreshes the selection when it is the updated one |
| SecretaireDashboard.DashboardPage.OnMissionsUpdate | frontend-secretaire/src/pages/Dashboard.jsx:121-124 | reloads once and reports the number sent |
| SecretaireDashboard.DashboardPage.OnMissionDelete | frontend-secretaire/src/pages/Dashboard.jsx:126-132 | removes the mission and closes its details when it was selected |
| ChauffeurMissions.Route | frontend-chauffeur/src/pages/Missions.jsx:62-68 | each subscribed event reaches its handler |
| ChauffeurMissions.UnhandledEvents | frontend-chauffeur/src/pages/Missions.jsx:62-76 | confirmation, pick-up, finish and comment events are not followed, and the cleanup mirrors the setup |
| ChauffeurMissions.MissionsPage.constructor | frontend-chauffeur/src/pages/Missions.jsx:62-127 | the page starts empty for its driver |
| ChauffeurMissions.MissionsPage.OnMissionUpdate | frontend-chauffeur/src/pages/Missions.jsx:94-115 | applies the driver's upsert and leaves other missions alone |
| ChauffeurMissions.MissionsPage.OnMissionsUpdate | frontend-chauffeur/src/pages/Missions.jsx:117-122 | reloads once and says so |
| ChauffeurMissions.MissionsPage.OnMissionDelete | frontend-chauffeur/src/pages/Missions.jsx:124-127 | removes the mission and says so |
| CreerMission.ClearError | frontend/src/components/Secretaire/CreerMission.jsx:42-52 | editing a field blanks only that field's error |
| CreerMission.SetFieldOnlyThatField | frontend/src/components/Secretaire/CreerMission.jsx:42-52 | a change event sets only the named field; an unknown name changes nothing |
| CreerMission.AddError | frontend/src/components/Secretaire/CreerMission.jsx:54-78 | an error key is added iff its check failed |
| CreerMission.FormErrors | frontend/src/components/Secretaire/CreerMission.jsx:54-78 | each field has an error iff it is blank (or has too few passengers), and there are no other errors |
| CreerMission.ValidFormIff | frontend/src/components/Secretaire/CreerMission.jsx:54-78 | the form is valid iff no field check fails |
| CreerMission.PassengerCountExamples | frontend/src/components/Secretaire/CreerMission.jsx:72 | "0" and "" are refused; "abc" and 1 pass, because NaN compares false |
| CreerMission.BeforeT | frontend/src/components/Secretaire/CreerMission.jsx:93 | the text before the first "T" |
| CreerMission.AfterT | frontend/src/components/Secretaire/CreerMission.jsx:94 | undefined iff there is no "T" |
| CreerMission.SplitDateHeure | frontend/src/components/Secretaire/CreerMission.jsx:93-94 | a `date + "T" + time` value splits back into its date and time |
| CreerMission.BeforeTOfPrefix | frontend/src/components/Secretaire/CreerMission.jsx:93 | a date without "T" comes back unchanged |
| CreerMission.BuildPayload | frontend/src/components/Secretaire/CreerMission.jsx:92-103 | every new mission is a draft without a vehicle, unassigned iff no driver was chosen |
| CreerMission.Submit | frontend/src/components/Secretaire/CreerMission.jsx:80-103 | the API is called iff the form is valid, with the built payload |
| CreerMission.PayloadIgnoresCollectedFields | frontend/src/components/Secretaire/CreerMission.jsx:92-103 | the telephone, passenger count and price are collected but never sent |
| CreerMission.PayloadTypeRejected | frontend/src/components/Secretaire/CreerMission.jsx:232-235 | the vehicle types the form offers are never accepted by the back end's type rule |
| StatCards.StatCounts | frontend-secretaire/src/components/dashboard/StatCards.jsx:10-13 | the four cards count drafts, sent-or-confirmed, picked up and finished |
| StatCards.StatCountsCover | frontend-secretaire/src/components/dashboard/StatCards.jsx:10-13 | the cards add up to the known missions, and to all missions iff no status is unknown |
| StatCards.EnCoursExcludesPec | frontend-secretaire/src/components/dashboard/StatCards.jsx:10-13 | the card's in-progress count is the helper's minus the picked-up ones |
| StatCards.CardKeysSpec | frontend-secretaire/src/components/dashboard/StatCards.jsx:36-69 | three cards open a status list; the in-progress card's key is not a status |
| ChauffeurDashboard.OnDate | frontend/src/components/Chauffeur/Dashboard.jsx:36 | keeps exactly today's missions |
| ChauffeurDashboard.OnDateCounts | frontend/src/components/Chauffeur/Dashboard.jsx:36 | each mission dated today is kept as often as it occurs in the list, and no other mission is kept |
| ChauffeurDashboard.OnDateKeepsOrder | frontend/src/components/Chauffeur/Dashboard.jsx:36 | the today filter keeps list order: it distributes over concatenation |
| ChauffeurDashboard.ComputeStats | frontend/src/components/Chauffeur/Dashboard.jsx:36-47 | `today` is the number of missions dated today; pending, in progress and completed are the counts of their statuses |
| ChauffeurDashboard.StatusCountersBounded | frontend/src/components/Chauffeur/Dashboard.jsx:36-47 | the three status counters never exceed the number of missions |
| ChauffeurDashboard.DraftsCountNowhere | frontend/src/components/Chauffeur/Dashboard.jsx:36-47 | a list of drafts counts nothing |
| ChauffeurDashboard.DashboardView.constructor | frontend/src/components/Chauffeur/Dashboard.jsx:13-17 | zero stats, loading |
| ChauffeurDashboard.DashboardView.LoadStats | frontend/src/components/Chauffeur/Dashboard.jsx:19-52 | without a truthy user id (none, or 0) nothing happens; a failed request keeps the stats; a response sets them; loading ends either way |
| ChauffeurListe.Render | frontend-chauffeur/src/components/ListeMissions.jsx:8-21 | the empty state iff there are no missions |
| ChauffeurListe.RenderSpec | frontend-chauffeur/src/components/ListeMissions.jsx:24-33 | each date groups exactly its missions, none is left out of the grouping, and the dates are exactly the group keys, sorted |
| ChauffeurListe.NothingDropped | frontend-chauffeur/src/components/ListeMissions.jsx:24-31 | every mission is grouped under some date |
| SecretaireListe.StatutBadge | frontend/src/components/Secretaire/ListeMissions.jsx:84-93 | the draft badge is used for drafts and unknown statuses only |
| SecretaireListe.BadgesDistinct | frontend/src/components/Secretaire/ListeMissions.jsx:84-93 | different known statuses get different badges |
| SecretaireListe.ChauffeurName | frontend/src/components/Secretaire/ListeMissions.jsx:95-98 | no id or an unknown id gives "Non assigné", otherwise the driver's name |
| SecretaireListe.ChauffeurNamesDisagree | frontend/src/components/Secretaire/ListeMissions.jsx:95-98 | the table and the dispatcher helper agree for an assigned known driver and for no driver; for an unknown driver id the table shows "Non assigné" while the helper shows its unknown-driver text |
| SecretaireListe.StatusOptionsSpec | frontend/src/components/Secretaire/ListeMissions.jsx:138-143 | the filter offers "all" and exactly the known statuses |
| SecretaireListe.MissionTable.constructor | frontend/src/components/Secretaire/ListeMissions.jsx:17-21 | no missions, the given filters, no toast |
| SecretaireListe.MissionTable.Delete | frontend/src/components/Secretaire/ListeMissions.jsx:42-55 | nothing without confirmation; otherwise removal with a success toast, or an error toast |
| SecretaireListe.MissionTable.SetStatut | frontend/src/components/Secretaire/ListeMissions.jsx:134-135 | changes only the status filter |
| SecretaireListe.MissionTable.SetDateDebut | frontend/src/components/Secretaire/ListeMissions.jsx:153 | changes only the start date filter |
| SecretaireListe.MissionTable.SetDateFin | frontend/src/components/Secretaire/ListeMissions.jsx:164 | changes only the end date filter |
| SocketClient.RemoveFirst | frontend-secretaire/src/services/socket.js:66-68 | the client's `off` removes one occurrence of the callback, if any |
| SocketClient.RemoveAll | frontend-secretaire/src/services/socket.js:60-63 | the registry filter keeps exactly the other callbacks |
| SocketClient.RemoveFirstIsRemoveAll | frontend-secretaire/src/services/socket.js:59-69 | removing one occurrence equals removing all iff the callback occurs at most once |
| SocketClient.RemoveAllAbsent | frontend-secretaire/src/services/socket.js:60-63 | filtering out an absent callback changes nothing |
| SocketClient.ClientSocket.constructor | frontend-secretaire/src/services/socket.js:16-19 | a new client has no handlers, is not connected and has sent nothing |
| SocketClient.ClientSocket.On | frontend-secretaire/src/services/socket.js:55 | appends the handler to its event |
| SocketClient.ClientSocket.Off | frontend-secretaire/src/services/socket.js:66-68 | removes the first occurrence of the handler |
| SocketClient.ClientSocket.Emit | frontend-secretaire/src/services/socket.js:71-75 | appends the message to what was sent |
| SocketClient.ClientSocket.Established | frontend-secretaire/src/services/socket.js:21-23 | the transport reports the connection |
| SocketClient.ClientSocket.Disconnect | frontend-secretaire/src/services/socket.js:41-46 | the client is no longer connected |
| SecretaireSocket.SocketService.constructor | frontend-secretaire/src/services/socket.js:6-9 | no socket, no listeners, in sync |
| SecretaireSocket.SocketService.Connect | frontend-secretaire/src/services/socket.js:11-39 | a connected socket is kept; otherwise a new socket gets every recorded listener; the sync is preserved |
| SecretaireSocket.SocketService.Disconnect | frontend-secretaire/src/services/socket.js:41-46 | the socket is disconnected and dropped, and the listeners are kept for the next connection |
| SecretaireSocket.SocketService.On | frontend-secretaire/src/services/socket.js:48-57 | the listener is recorded, and attached when there is a socket; the sync is preserved |
| SecretaireSocket.SocketService.Off | frontend-secretaire/src/services/socket.js:59-69 | the registry drops every copy, the socket only the first |
| SecretaireSocket.SocketService.OffAll | frontend-secretaire/src/services/socket.js:59-69 | the callback is detached completely from the socket as from the registry; the sync is preserved |
| SecretaireSocket.SocketService.Emit | frontend-secretaire/src/services/socket.js:71-75 | emits only when there is a socket |
| SecretaireSocket.AttachRegistry | frontend-secretaire/src/services/socket.js:33-38 | the restoration loop attaches exactly the recorded listeners |
| SecretaireSocket.AttachAll | frontend-secretaire/src/services/socket.js:34-37 | one event's listeners are attached in order, and no other event changes |
| SecretaireSocket.RegistryOff | frontend-secretaire/src/services/socket.js:60-63 | no copy of the callback is left for that event, and other events are unchanged |
| SocketClient.SocketOff | frontend-secretaire/src/services/socket.js:66-68 | `off` on a handler table removes the first copy under that event and changes no other event |
| SocketClient.SocketOffKeepsSame | frontend/src/services/socket.js:88-101 | removing the same first copy from two alike tables leaves them alike |
| SecretaireSocket.OffKeepsSyncIff | frontend-secretaire/src/services/socket.js:59-69 | `off` keeps registry and socket in sync iff the callback was registered at most once |
| SecretaireSocket.RemoveAllAfterRemoveFirst | frontend-secretaire/src/services/socket.js:59-69 | the registry's filter after the socket's removal is the filter alone |
| FrontendSocket.SocketService.constructor | frontend/src/services/socket.js:6-9 | no socket, no listeners |
| FrontendSocket.SocketService.Connect | frontend/src/services/socket.js:14-38 | no token, an empty token or a live connection change nothing; otherwise a fresh socket with no handlers |
| FrontendSocket.SocketService.On | frontend/src/services/socket.js:68-81 | without a socket nothing is recorded; otherwise attached and recorded; the sync is preserved |
| FrontendSocket.SocketService.Off | frontend/src/services/socket.js:88-101 | without a socket nothing changes; otherwise the first copy goes from both; the sync is preserved |
| FrontendSocket.SocketService.Emit | frontend/src/services/socket.js:108-115 | emits only when connected |
| FrontendSocket.SocketService.Disconnect | frontend/src/services/socket.js:120-134 | every recorded listener is detached, the registry emptied, the socket disconnected and dropped |
| FrontendSocket.SocketService.SetupMissionListeners | frontend/src/services/socket.js:150-168 | each given callback is added to its mission event, and the sync is preserved |
| FrontendSocket.SocketService.OnIfPresent | frontend/src/services/socket.js:151-167 | a callback is registered only when given |
| FrontendSocket.Register | frontend/src/services/socket.js:151-167 | a given callback is appended to its event only |
| FrontendSocket.MissionListenersAdded | frontend/src/services/socket.js:150-168 | each event gains exactly the callback given for it |
| FrontendSocket.MissionCallbacks | frontend/src/services/socket.js:150-168 | at most one callback per event, present iff it was given for that event |
| FrontendSocket.RemoveEach | frontend/src/services/socket.js:125-129 | removing callbacks never lengthens the list |
| FrontendSocket.DetachRegistry | frontend/src/services/socket.js:124-130 | the detach loop removes every recorded listener from its event |
| FrontendSocket.DetachAll | frontend/src/services/socket.js:125-129 | one event's recorded listeners are removed one by one, and no other event changes |
| FrontendSocket.RemoveEachPrefix | frontend/src/services/socket.js:125-129 | removing a handler list's own first j entries leaves the rest |
| FrontendSocket.DisconnectDetachesEverything | frontend/src/services/socket.js:120-134 | in sync, disconnecting leaves no handler attached |
| FrontendSocket.SameHandlersUpdate | frontend/src/services/socket.js:68-101 | updating one event alike on both sides keeps them in sync |
| Geolocalisation.OnlinePositions | frontend-secretaire/src/pages/Geolocalisation.jsx:99-103 | keeps exactly the positions at most five minutes old |
| Geolocalisation.OfflinePositions | frontend-secretaire/src/pages/Geolocalisation.jsx:104-108 | keeps exactly the positions more than five minutes old |
| Geolocalisation.Undated | frontend-secretaire/src/pages/Geolocalisation.jsx:80-112 | the positions with an invalid date |
| Geolocalisation.UpdateStats | frontend-secretaire/src/pages/Geolocalisation.jsx:80-92 | total is the count, online the online ones, offline the rest |
| Geolocalisation.FilteredPositions | frontend-secretaire/src/pages/Geolocalisation.jsx:95-112 | any other filter shows everything, and a filter never invents positions |
| Geolocalisation.PresencePartition | frontend-secretaire/src/pages/Geolocalisation.jsx:80-112 | online, offline and undated positions partition the list |
| Geolocalisation.StatsOfflineCount | frontend-secretaire/src/pages/Geolocalisation.jsx:80-112 | the offline count is the offline filter plus the undated; they agree iff every date is valid |
| Geolocalisation.OnlineKeepsOrder | frontend-secretaire/src/pages/Geolocalisation.jsx:95-112 | the online filter keeps order: it distributes over concatenation |
| Geolocalisation.OfflineKeepsOrder | frontend-secretaire/src/pages/Geolocalisation.jsx:95-112 | the offline filter keeps order: it distributes over concatenation |
| Geolocalisation.GeolocalisationPage.constructor | frontend-secretaire/src/pages/Geolocalisation.jsx:60-64 | no positions, the "all" filter, zero stats |
| Geolocalisation.GeolocalisationPage.OnPositions | frontend-secretaire/src/pages/Geolocalisation.jsx:60-64 | new positions replace the old, with their stats and update time; the filter is kept |
| Geolocalisation.GeolocalisationPage.SetFilter | frontend-secretaire/src/pages/Geolocalisation.jsx:95-112 | changes only the filter |
| ServiceWorker.OrDefault | frontend-chauffeur/public/service-worker.js:95-107 | a falsy title or body falls back to the default |
| ServiceWorker.NotificationFor | frontend-chauffeur/public/service-worker.js:77-113 | no data or malformed data show the default notification; a payload replaces the title, body and data; icon, tag, actions and interaction are fixed |
| ServiceWorker.CacheStorage.constructor | frontend-chauffeur/public/service-worker.js:4 | no caches |
| ServiceWorker.CacheStorage.Match | frontend-chauffeur/public/service-worker.js:69-72 | a match is a stored response, and no match means none is stored |
| ServiceWorker.CacheStorage.Put | frontend-chauffeur/public/service-worker.js:61-66 | stores the response in the current cache, opening it if needed |
| ServiceWorker.CacheStorage.Delete | frontend-chauffeur/public/service-worker.js:40-47 | removes exactly that cache |
| ServiceWorker.CacheStorage.Activate | frontend-chauffeur/public/service-worker.js:36-54 | every cache but the current one is deleted, and the current one is kept as it was |
| ServiceWorker.CacheStorage.Fetch | frontend-chauffeur/public/service-worker.js:57-74 | the network answer is returned and cached when ok; offline, the cached answer is returned and nothing changes |
| ServiceWorker.MatchIn | frontend-chauffeur/public/service-worker.js:69-72 | the answer comes from the first cache, in name order, that holds the request; none when no cache holds it |
| ServiceWorker.RemoveName | frontend-chauffeur/public/service-worker.js:40-47 | a deleted name leaves the list, which stays free of duplicates |
| ServiceWorker.OnNotificationClick | frontend-chauffeur/public/service-worker.js:116-137 | "dismiss" does nothing; otherwise the first focusable window whose URL contains "/" is focused whenever there is one, else a window opens at "/" whenever the browser allows it |
| ServiceWorker.FirstFocusable | frontend-chauffeur/public/service-worker.js:125-131 | the first window that can be focused, or none |

## Left out

- Express, Sequelize, Socket.IO transport, Firebase Admin and `jwt.verify` are parameters: the verifier map, the stores, the delivery outcome and the `emit` record.
- Location.js is not part of this model. Its columns do not match the route's calls, so the position store is a parameter of the geolocation handlers.
- The mission controller is not part of this model. The routes end in named actions (`Reached(action, req)`).
- Floating point: latitude, longitude, speed and heading (`parseFloat`) are not modelled. Values hold integers only.
- Base.Value: JSON booleans, arrays and objects in a request body are outside the value domain. The core treats them in its own way (`true` is the text "true" to the validators, fails `isInt`, and is truthy as a coordinate), and none of that is modelled.
- JsNumbers.ToNumber: a fractional text such as "1.5" and an exponent text such as "1e2" or "0e5" are treated as NaN, where `Number` reads them. The passenger check of the creation form therefore lets "0e5" or "0.5" through, where the form flags a value below 1. `Number` also reads "Infinity", `0b` and `0o` text, which the model treats as NaN; a number input never produces them.
- Validation.IntTextOfNumber: stated only for integers of magnitude below 10^21. From there on `String(n)` is exponent text (`1e+21`), which `isInt` refuses; `Base.IntToString` does not produce exponent text.
- JsNumbers.ParseIntRoundTrip: stated only for integers of magnitude below 10^21. From there on `String(n)` is exponent text and `parseInt` stops at the `e`. The same bound applies to JsNumbers.ToNumberRoundTrip and Geolocation.DriverReadsOwnPosition.
- Integers are exact: a JavaScript number above 2^53 is rounded to a double, which the model does not do.
- MissionRoutes.FirstMatchFrom: Express's non-strict trailing slash (`/missions/12/` matches `/:id`) and percent-decoding of parameters are not modelled. Paths are given already split into segments.
- Sorting.SortBy: stability is not stated. `Array.prototype.sort` keeps equal missions in input order; the model proves only that the result is ordered and a permutation.
- Validation.Validate: express-validator's `.trim()` sanitizers rewrite `req.body` in place; the model's passing request keeps the untrimmed text. Only the mission controller, which is not part of this model, reads it.
- Object keys: `Object.prototype` names and integer-like keys, which change the key order of `Object.keys`, are not modelled. Date keys are treated as plain strings.
- StringOrder.LocaleCompare: the collation places `-` and `:` before the digits and the digits before every other character, as the locale does; other characters keep code order, where the locale would fold case and accents. The code order is by code point, where JavaScript uses UTF-16 code units; they differ only beyond U+FFFF.
- MissionHelpers.SortMissionsByDateTime: requires string dates and times whenever two or more missions are sorted. The comparator throws when the left-hand operand (`a.date_mission` or `a.heure_prevue`) is not a string, since `localeCompare` is called on it; a non-string argument would only be converted to text. That throw is not modelled.
- `isMissionRecente` depends on the clock and is not modelled. Date formatting (`toLocaleDateString`, `format`) and "today" are parameters, and formatting is treated as total: date-fns `format` throws on an invalid date (a `null` date key or a timestamp key in the driver list), which would bring the list down, and that throw is not modelled.
- React rendering, stale closures of effects and asynchronous state batching are not modelled. Handlers run one at a time on the latest state. The driver page's `user` is a fixed driver id.
- Promise ordering is not modelled. Every awaited call completes before the next step, and the unawaited `cache.put` of a fetch is treated as done before the next event.
- The sockets' logging handlers (connect, disconnect, errors, `setupDefaultListeners`) and the `auth` token passed to `io` are not modelled. They change no state the rest of the code reads.
- Socket.IO's reconnection is not modelled. `Established` stands for the transport reporting a connection.
- The service worker's `install` and `message` handlers, `skipWaiting` and `clients.claim` are not modelled. The cache of a non-GET request is treated as a plain put.
- ServiceWorker.NotificationFor: a payload whose `data` is a non-object value is treated as no data.

## Findings

| source | as written | input that shows it | evidently intended | confidence | as-written member | corrected member |
|---|---|---|---|---|---|---|
| frontend-secretaire/src/services/socket.js:59-69 | `off` filters every copy of the callback out of the registry, but the socket's `off` removes only the first attached copy | `on('mission:nouvelle', f); on('mission:nouvelle', f); off('mission:nouvelle', f)`: the registry no longer lists `f`, but the live socket still calls `f` | `off` detaches the callback from the live socket as completely as from the registry | medium, not executed | SecretaireSocket.OffKeepsSyncIff | SecretaireSocket.SocketService.OffAll |

Two behaviours follow from the code as written and are stated by lemmas rather than listed as findings:

- `Geolocalisation.StatsOfflineCount`: a position with an invalid date is counted as offline by the statistics, but neither filter shows it.
- `FrontendSocket.SocketService.Connect`: replacing a disconnected socket does not re-attach the recorded listeners.

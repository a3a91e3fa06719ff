/**
  The Kommo API client of the widget: the requests it builds for the CRM's REST API
  and for the n8n webhook, the webhook URL check, and the reshaping of the user list.
  A request is described by its parts; sending it (and JSON.stringify of the body)
  belongs to the HTTP helper, which is not part of this model.
 */
module Kommo {
  import opened JsValue

  // ---------------------------------------------------------------------------
  // Requests

  datatype Verb = GET | POST

  /** Where a request goes: the CRM account's own origin, or an external webhook URL. */
  datatype BaseUrl = AccountOrigin | External(url: Value)

  datatype NotePayload = NotePayload(entityId: Value, noteType: string, text: string)

  datatype TaskPayload = TaskPayload(
    text: string,
    entityId: Value,
    entityType: int,
    responsibleUserId: Value,
    taskTypeId: int,
    completeTill: int)

  datatype WebhookPayload =
    | Interaction(agentId: Value, entityData: Value, trigger: string, timestamp: string,
                  account: Value, source: string)
    | ConnectionTest(test: bool, agentId: Value, message: string, timestamp: string,
                     source: string)

  datatype Body =
    | NoBody
    | Embed(with: string)
    | Notes(notes: seq<NotePayload>)
    | Tasks(tasks: seq<TaskPayload>)
    | ToWebhook(payload: WebhookPayload)

  datatype Request = Request(path: string, body: Body, verb: Verb, base: BaseUrl,
                             headers: map<string, string>)

  const JsonContentType: map<string, string> := map["Content-Type" := "application/json"]

  const NotePrefix: string := "\U{1F916} Chatbot Response:\n"
  const TaskPrefix: string := "\U{1F916} Follow-up from Chatbot: "
  const SecondsPerDay: int := 24 * 60 * 60

  /** Headers of a webhook call: JSON always, bearer auth only for a truthy token. */
  function WebhookHeaders(authToken: Value): (h: map<string, string>)
    ensures "Content-Type" in h && h["Content-Type"] == "application/json"
    ensures "Authorization" in h <==> Truthy(authToken)
    ensures "Authorization" in h ==> h["Authorization"] == "Bearer " + ToJsString(authToken)
    ensures h.Keys <= {"Content-Type", "Authorization"}
  {
    var base := JsonContentType;
    if Truthy(authToken) then base["Authorization" := "Bearer " + ToJsString(authToken)]
    else base
  }

  /** `sendToN8nWebhook(webhookUrl, payload, authToken = null)` */
  function SendToN8nWebhook(webhookUrl: Value, payload: WebhookPayload, authToken: Value): (r: Request)
    ensures r.verb == POST && r.path == "" && r.base == External(webhookUrl)
    ensures r.body == ToWebhook(payload)
    ensures r.headers == WebhookHeaders(authToken)
  {
    Request("", ToWebhook(payload), POST, External(webhookUrl), WebhookHeaders(authToken))
  }

  /** `testN8nConnection(webhookUrl, agentId, authToken = null)`; `isoNow` stands for
      `new Date().toISOString()`. */
  function TestN8nConnection(webhookUrl: Value, agentId: Value, authToken: Value, isoNow: string)
    : (r: Request)
    ensures r.verb == POST && r.path == "" && r.base == External(webhookUrl)
    ensures r.body.ToWebhook? && r.body.payload.ConnectionTest?
    ensures r.body.payload.test && r.body.payload.agentId == agentId
    ensures r.body.payload.message == "Test connection from Kommo"
    ensures r.body.payload.timestamp == isoNow
    ensures r.body.payload.source == "kommo_widget_test"
    ensures r.headers == WebhookHeaders(authToken)
  {
    var payload := ConnectionTest(true, agentId, "Test connection from Kommo", isoNow,
                                  "kommo_widget_test");
    SendToN8nWebhook(webhookUrl, payload, authToken)
  }

  /** `processChatbotInteraction(config, entityData, trigger = 'manual')`. The agent id
      and the token are read from the keys `agent_id` and `api_key` of the config. */
  function ProcessChatbotInteraction(config: Value, entityData: Value, trigger: Option<string>,
                                     isoNow: string, subdomain: Value): (r: Request)
    ensures r.verb == POST && r.path == "" && r.base == External(Get(config, "webhook_url"))
    ensures r.headers == WebhookHeaders(Get(config, "api_key"))
    ensures r.body.ToWebhook? && r.body.payload.Interaction?
    ensures r.body.payload.agentId == Get(config, "agent_id")
    ensures r.body.payload.entityData == entityData
    ensures r.body.payload.trigger == (if trigger.None? then "manual" else trigger.value)
    ensures r.body.payload.account == subdomain && r.body.payload.timestamp == isoNow
    ensures r.body.payload.source == "kommo_widget"
  {
    var tag := match trigger case None => "manual" case Some(t) => t;
    var payload := Interaction(Get(config, "agent_id"), entityData, tag, isoNow, subdomain,
                               "kommo_widget");
    SendToN8nWebhook(Get(config, "webhook_url"), payload, Get(config, "api_key"))
  }

  /** `getEntityData(entityId, entityType)` */
  function GetEntityData(entityId: Value, entityType: string): (r: Request)
    ensures r.verb == GET && r.base == AccountOrigin && r.headers == map[]
    ensures r.path == "/api/v4/" + entityType + "/" + ToJsString(entityId)
    ensures r.body == Embed("contacts,custom_fields,tasks,notes")
  {
    Request("/api/v4/" + entityType + "/" + ToJsString(entityId),
            Embed("contacts,custom_fields,tasks,notes"), GET, AccountOrigin, map[])
  }

  /** `createChatbotNote(entityId, entityType, noteText)` */
  function CreateChatbotNote(entityId: Value, entityType: string, noteText: Value): (r: Request)
    ensures r.verb == POST && r.base == AccountOrigin && r.headers == JsonContentType
    ensures r.path == "/api/v4/" + entityType + "/" + ToJsString(entityId) + "/notes"
    ensures r.body.Notes? && |r.body.notes| == 1
    ensures r.body.notes[0].entityId == entityId && r.body.notes[0].noteType == "common"
    ensures r.body.notes[0].text == NotePrefix + ToJsString(noteText)
  {
    var payload := NotePayload(entityId, "common", NotePrefix + ToJsString(noteText));
    Request("/api/v4/" + entityType + "/" + ToJsString(entityId) + "/notes",
            Notes([payload]), POST, AccountOrigin, JsonContentType)
  }

  /** `Math.floor(nowMs / 1000) + 24 * 60 * 60`: a whole-second Unix time one day ahead. */
  function DueInOneDay(nowMs: int): (t: int)
    ensures (t - SecondsPerDay) * 1000 <= nowMs < (t - SecondsPerDay + 1) * 1000
  {
    nowMs / 1000 + SecondsPerDay
  }

  /** `createChatbotTask(entityId, entityType, taskText, responsibleUserId = null)`;
      `currentUserId` stands for `APP.USER.id` and `nowMs` for `Date.now()`. */
  function CreateChatbotTask(entityId: Value, entityType: string, taskText: Value,
                             responsibleUserId: Value, currentUserId: Value, nowMs: int)
    : (r: Request)
    ensures r.verb == POST && r.base == AccountOrigin && r.headers == JsonContentType
    ensures r.path == "/api/v4/tasks"
    ensures r.body.Tasks? && |r.body.tasks| == 1
    ensures var t := r.body.tasks[0];
      && t.text == TaskPrefix + ToJsString(taskText)
      && t.entityId == entityId
      && (t.entityType == 2 <==> entityType == "leads")
      && (t.entityType == 1 <==> entityType != "leads")
      && t.taskTypeId == 1
      && (Truthy(responsibleUserId) ==> t.responsibleUserId == responsibleUserId)
      && (!Truthy(responsibleUserId) ==> t.responsibleUserId == currentUserId)
      && (t.completeTill - SecondsPerDay) * 1000 <= nowMs
      && nowMs < (t.completeTill - SecondsPerDay + 1) * 1000
  {
    var payload := TaskPayload(
      TaskPrefix + ToJsString(taskText),
      entityId,
      if entityType == "leads" then 2 else 1,
      if Truthy(responsibleUserId) then responsibleUserId else currentUserId,
      1,
      DueInOneDay(nowMs));
    Request("/api/v4/tasks", Tasks([payload]), POST, AccountOrigin, JsonContentType)
  }

  // ---------------------------------------------------------------------------
  // Users

  /** An entry of the responsible-user picker: `{id, option: name, name}`. */
  datatype UserOption = UserOption(id: Value, option: Value, name: Value)

  /** `user.rights && user.rights.is_active` for a user that is not null or undefined. */
  predicate IsActive(user: Value) {
    Truthy(Get(user, "rights")) && Truthy(Get(Get(user, "rights"), "is_active"))
  }

  function Reshape(user: Value): UserOption {
    UserOption(Get(user, "id"), Get(user, "name"), Get(user, "name"))
  }

  /** `users.filter(isActive).map(reshape)`; reading `.rights` of a null or undefined
      entry throws. */
  function ActiveUsers(users: seq<Value>): Outcome<seq<UserOption>> {
    if users == [] then Returned([])
    else if Nullish(users[0]) then Threw
    else match ActiveUsers(users[1..])
      case Threw => Threw
      case Returned(rest) =>
        Returned((if IsActive(users[0]) then [Reshape(users[0])] else []) + rest)
  }

  /** `((response || {})._embedded || {}).users || []` */
  function UsersList(response: Value): (r: Value)
    ensures Truthy(r)
    ensures !Truthy(Get(response, "_embedded")) ==> r == Arr([])
    ensures Truthy(Get(response, "_embedded")) && Truthy(Get(Get(response, "_embedded"), "users"))
            ==> r == Get(Get(response, "_embedded"), "users")
  {
    var r := if Truthy(response) then response else Obj(map[]);
    var embedded := if Truthy(Get(r, "_embedded")) then Get(r, "_embedded") else Obj(map[]);
    if Truthy(Get(embedded, "users")) then Get(embedded, "users") else Arr([])
  }

  /** The response handler of `getUsers()`; `filter` exists on arrays only. */
  function GetUsers(response: Value): (r: Outcome<seq<UserOption>>)
    ensures UsersList(response).Arr? ==> r == ActiveUsers(UsersList(response).items)
    ensures r.Threw? <==>
      !UsersList(response).Arr? || exists u :: u in UsersList(response).items && Nullish(u)
    ensures r.Returned? ==> forall o :: o in r.value <==>
      exists u :: u in UsersList(response).items && IsActive(u) && o == Reshape(u)
  {
    var users := UsersList(response);
    if users.Arr? then
      ActiveUsersExact(users.items);
      ActiveUsers(users.items)
    else Threw
  }

  /** Filtering keeps the input order: the result for `xs + ys` is the one for `xs`
      followed by the one for `ys`. */
  lemma {:induction false} ActiveUsersAppend(xs: seq<Value>, ys: seq<Value>)
    requires ActiveUsers(xs).Returned? && ActiveUsers(ys).Returned?
    ensures ActiveUsers(xs + ys) == Returned(ActiveUsers(xs).value + ActiveUsers(ys).value)
  {
    if xs == [] {
      assert xs + ys == ys;
      assert ActiveUsers(xs).value + ActiveUsers(ys).value == ActiveUsers(ys).value;
    } else {
      assert (xs + ys)[0] == xs[0];
      assert (xs + ys)[1..] == xs[1..] + ys;
      ActiveUsersAppend(xs[1..], ys);
      var head := if IsActive(xs[0]) then [Reshape(xs[0])] else [];
      assert ActiveUsers(xs).value == head + ActiveUsers(xs[1..]).value;
      assert head + (ActiveUsers(xs[1..]).value + ActiveUsers(ys).value)
          == (head + ActiveUsers(xs[1..]).value) + ActiveUsers(ys).value;
    }
  }

  /** The list fails exactly when some entry is null or undefined; otherwise it holds
      the reshaped active users and nothing else. */
  lemma {:induction false} ActiveUsersExact(users: seq<Value>)
    ensures ActiveUsers(users).Threw? <==> exists u :: u in users && Nullish(u)
    ensures ActiveUsers(users).Returned? ==>
      (forall o :: o in ActiveUsers(users).value <==>
         exists u :: u in users && IsActive(u) && o == Reshape(u))
    ensures ActiveUsers(users).Returned? ==> |ActiveUsers(users).value| <= |users|
  {
    if users != [] {
      ActiveUsersExact(users[1..]);
      assert forall u :: u in users <==> u == users[0] || u in users[1..];
    }
  }

  /** A response without `_embedded` or without `users` yields no options. */
  lemma GetUsersMissing(response: Value)
    requires !Truthy(Get(response, "_embedded")) || !Truthy(Get(Get(response, "_embedded"), "users"))
    ensures GetUsers(response) == Returned([])
  {
  }

  // ---------------------------------------------------------------------------
  // Webhook URL check

  /** What the URL parser reports: the `protocol` (with its colon) and the `hostname`. */
  datatype UrlParts = UrlParts(protocol: string, hostname: string)

  /** `new URL(s)`: None when the constructor throws. */
  type UrlParser = string -> Option<UrlParts>

  /** `validateWebhookUrl(url)` */
  function ValidateWebhookUrl(url: string, parse: UrlParser): (ok: bool)
    ensures ok <==> parse(url).Some? && parse(url).value.protocol == "https:"
                    && parse(url).value.hostname != ""
  {
    match parse(url)
    case None => false
    case Some(parts) => parts.protocol == "https:" && |parts.hostname| > 0
  }
}

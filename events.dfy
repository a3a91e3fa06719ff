/**
  The card-view side of the widget: which CRM events start a chatbot interaction,
  how an interaction runs (fetch the entity, call the webhook, write the reply back
  as a note and/or task), and the two guards of the settings form.

  The HTTP results of an interaction arrive asynchronously in the widget; here they
  are given as parameters (`StageOutcomes`), and everything the widget does that
  can be seen from outside (requests sent, dialogs, the processing indicator) is
  appended, in order, to a log of `Effect`s.
 */
module Events {
  import opened JsValue
  import opened Kommo

  // ---------------------------------------------------------------------------
  // Routing

  /** The three CRM event topics the widget can listen to. */
  datatype Topic = StatusChanged | NoteAdded | EntityUpdated

  /** The jQuery event name bound on `document`. */
  function TopicName(t: Topic): string {
    match t
    case StatusChanged => "pipeline:status:changed"
    case NoteAdded => "note:added"
    case EntityUpdated => "entity:updated"
  }

  /** The configured event kind, which is also the trigger tag sent to the webhook. */
  function KindTag(t: Topic): string {
    match t
    case StatusChanged => "status_changed"
    case NoteAdded => "note_added"
    case EntityUpdated => "updated"
  }

  /** The `switch(eventType)` of `setupEventListener`: strict comparison, no default. */
  function RouteFor(eventType: Value): (t: Option<Topic>)
    ensures t.Some? <==> eventType in {Str("status_changed"), Str("note_added"), Str("updated")}
    ensures t.Some? ==> eventType == Str(KindTag(t.value))
  {
    if eventType == Str("status_changed") then Some(StatusChanged)
    else if eventType == Str("note_added") then Some(NoteAdded)
    else if eventType == Str("updated") then Some(EntityUpdated)
    else None
  }

  /** A bound handler: its topic, and the entity and configuration its closure captured. */
  datatype Listener = Listener(topic: Topic, entityType: string, entityId: Value, config: Value)

  /** A call `triggerChatbot(config, entityType, entityId, trigger)`. */
  datatype TriggerCall = TriggerCall(config: Value, entityType: string, entityId: Value,
                                     trigger: string)

  /** `APP.widgets.system.area === 'lcard' ? 'leads' : 'contacts'` */
  function EntityTypeFor(area: string): string {
    if area == "lcard" then "leads" else "contacts"
  }

  /** `_this.widget.info.params || {}` */
  function ConfigOf(params: Value): (config: Value)
    ensures Truthy(config)
    ensures Truthy(params) ==> config == params
    ensures !Truthy(params) ==> config == Obj(map[])
  {
    if Truthy(params) then params else Obj(map[])
  }

  /** The gate of `card()`: both `webhook_url` and `agent_id` must be truthy. */
  predicate CardGate(config: Value) {
    Truthy(Get(config, "webhook_url")) && Truthy(Get(config, "agent_id"))
  }

  /** The handlers `setupEventListener` binds for one event kind: one for a known kind,
      none for any other value. */
  function ListenerFor(eventType: Value, entityType: string, entityId: Value, config: Value)
    : seq<Listener>
  {
    match RouteFor(eventType)
    case None => []
    case Some(t) => [Listener(t, entityType, entityId, config)]
  }

  /** The handlers bound for a list of event kinds, in list order. */
  function ListenersFor(events: seq<Value>, entityType: string, entityId: Value, config: Value)
    : seq<Listener>
  {
    if events == [] then []
    else ListenersFor(events[..|events| - 1], entityType, entityId, config)
         + ListenerFor(events[|events| - 1], entityType, entityId, config)
  }

  /** `config.events.length > 0`; a `length` that is not a number counts as not positive. */
  predicate LengthPositive(events: Value) {
    var len := Get(events, "length");
    len.Num? && len.n > 0
  }

  /** What `setupAutoTriggers(config)` binds: nothing unless `events` is truthy with a
      positive length, and a TypeError when that value has no `forEach`. */
  function AutoTriggerListeners(config: Value, area: string, entityId: Value)
    : (r: Outcome<seq<Listener>>)
    ensures var events := Get(config, "events");
      !Truthy(events) || !LengthPositive(events) ==> r == Returned([])
    ensures var events := Get(config, "events");
      events.Arr? ==> r == Returned(ListenersFor(events.items, EntityTypeFor(area), entityId, config))
    ensures var events := Get(config, "events");
      r.Threw? <==> Truthy(events) && LengthPositive(events) && !events.Arr?
    ensures var events := Get(config, "events");
      events.Arr? ==>
        && r.Returned?
        && |r.value| == Count(events.items, "status_changed")
                        + Count(events.items, "note_added") + Count(events.items, "updated")
    ensures r.Returned? ==> forall i :: 0 <= i < |r.value| ==>
      && r.value[i].entityId == entityId
      && r.value[i].entityType == EntityTypeFor(area)
      && r.value[i].config == config
  {
    var events := Get(config, "events");
    if !Truthy(events) || !LengthPositive(events) then Returned([])
    else if !events.Arr? then Threw
    else
      ListenersForKinds(events.items, EntityTypeFor(area), entityId, config);
      Returned(ListenersFor(events.items, EntityTypeFor(area), entityId, config))
  }

  /** What a bound handler does with non-nullish `data`: it compares `data.entity_id`
      with its own entity and, when equal, triggers with its own kind as tag. */
  function Fire(l: Listener, data: Value): seq<TriggerCall> {
    if StrictEquals(Get(data, "entity_id"), l.entityId)
    then [TriggerCall(l.config, l.entityType, l.entityId, KindTag(l.topic))]
    else []
  }

  /** `$(document).trigger(event, data)`: jQuery runs the handlers bound to `event` in
      binding order. Each reads `data.entity_id`, so on null or undefined `data` the
      first of them throws and the exception leaves the dispatch. */
  function Dispatch(listeners: seq<Listener>, event: string, data: Value)
    : (r: Outcome<seq<TriggerCall>>)
    ensures r.Threw? <==>
      Nullish(data) && exists i :: 0 <= i < |listeners| && TopicName(listeners[i].topic) == event
  {
    if listeners == [] then Returned([])
    else if TopicName(listeners[0].topic) != event then
      var r := Dispatch(listeners[1..], event, data);
      assert forall i :: 0 < i < |listeners| ==> listeners[i] == listeners[1..][i - 1];
      r
    else if Nullish(data) then Threw
    else match Dispatch(listeners[1..], event, data)
      case Threw => Threw
      case Returned(rest) => Returned(Fire(listeners[0], data) + rest)
  }

  /** The calls of two dispatches in a row; a throw in the first ends both. */
  function Chain(first: Outcome<seq<TriggerCall>>, second: Outcome<seq<TriggerCall>>)
    : Outcome<seq<TriggerCall>>
  {
    match first
    case Threw => Threw
    case Returned(x) =>
      match second
      case Threw => Threw
      case Returned(y) => Returned(x + y)
  }

  /** Each topic has its own jQuery event name. */
  lemma TopicNameInjective(a: Topic, b: Topic)
    ensures TopicName(a) == TopicName(b) <==> a == b
  {
    if a != b {
      assert |TopicName(a)| != |TopicName(b)|;
    }
  }

  /** How often `kind` occurs in the configured list. */
  function Count(events: seq<Value>, kind: string): nat {
    if events == [] then 0
    else Count(events[..|events| - 1], kind) + (if events[|events| - 1] == Str(kind) then 1 else 0)
  }

  /** The manual button of `init()`: the open card's entity with the tag `manual`. */
  function ManualTrigger(area: string, entityId: Value, params: Value): (c: TriggerCall)
    ensures c.trigger == "manual" && c.entityId == entityId
    ensures c.entityType == (if area == "lcard" then "leads" else "contacts")
    ensures c.config == ConfigOf(params) && Truthy(c.config)
  {
    TriggerCall(ConfigOf(params), EntityTypeFor(area), entityId, "manual")
  }

  lemma {:induction false} DispatchAppend(a: seq<Listener>, b: seq<Listener>, event: string,
                                          data: Value)
    ensures Dispatch(a + b, event, data) == Chain(Dispatch(a, event, data), Dispatch(b, event, data))
  {
    if a == [] {
      assert a + b == b;
      match Dispatch(b, event, data)
      case Threw =>
      case Returned(y) => assert [] + y == y;
    } else {
      assert (a + b)[0] == a[0] && (a + b)[1..] == a[1..] + b;
      DispatchAppend(a[1..], b, event, data);
      if TopicName(a[0].topic) == event && !Nullish(data) {
        match Dispatch(a[1..], event, data)
        case Threw =>
        case Returned(x) =>
          match Dispatch(b, event, data)
          case Threw =>
          case Returned(y) =>
            assert Fire(a[0], data) + (x + y) == (Fire(a[0], data) + x) + y;
      }
    }
  }

  /** Dispatching to the handlers bound for one event kind. */
  lemma DispatchOne(eventType: Value, entityType: string, entityId: Value, config: Value,
                    topic: Topic, data: Value)
    ensures var r := Dispatch(ListenerFor(eventType, entityType, entityId, config),
                              TopicName(topic), data);
      var hit := eventType == Str(KindTag(topic));
      && (r.Threw? <==> hit && Nullish(data))
      && (r.Returned? ==>
            r.value == if hit && StrictEquals(Get(data, "entity_id"), entityId)
                       then [TriggerCall(config, entityType, entityId, KindTag(topic))] else [])
  {
    match RouteFor(eventType)
    case None =>
    case Some(t) =>
      var one := [Listener(t, entityType, entityId, config)];
      assert one[1..] == [];
      TopicNameInjective(t, topic);
  }

  /** After `setupAutoTriggers` bound the handlers for `events`, an event on `topic`
      triggers once per occurrence of its kind in the list (duplicates are not merged),
      only for the open card's entity, and always with the kind as tag; null or
      undefined event data throws as soon as one handler is bound to the topic. */
  lemma {:induction false} DispatchAfterSetup(events: seq<Value>, entityType: string,
                                              entityId: Value, config: Value, topic: Topic,
                                              data: Value)
    ensures var r := Dispatch(ListenersFor(events, entityType, entityId, config),
                              TopicName(topic), data);
      var n := Count(events, KindTag(topic));
      && (r.Threw? <==> Nullish(data) && n > 0)
      && (r.Returned? ==>
            && |r.value| == (if StrictEquals(Get(data, "entity_id"), entityId) then n else 0)
            && forall i :: 0 <= i < |r.value| ==>
                 r.value[i] == TriggerCall(config, entityType, entityId, KindTag(topic)))
  {
    if events != [] {
      var init := events[..|events| - 1];
      var last := events[|events| - 1];
      DispatchAfterSetup(init, entityType, entityId, config, topic, data);
      DispatchAppend(ListenersFor(init, entityType, entityId, config),
                     ListenerFor(last, entityType, entityId, config), TopicName(topic), data);
      DispatchOne(last, entityType, entityId, config, topic, data);
    }
  }

  /** Kinds other than the three known ones bind nothing; each known kind binds exactly
      one handler on its own topic. */
  lemma {:induction false} ListenersForKinds(events: seq<Value>, entityType: string,
                                             entityId: Value, config: Value)
    ensures var ls := ListenersFor(events, entityType, entityId, config);
      && |ls| == Count(events, "status_changed") + Count(events, "note_added")
                 + Count(events, "updated")
      && forall i :: 0 <= i < |ls| ==>
           ls[i].entityId == entityId && ls[i].entityType == entityType && ls[i].config == config
  {
    if events != [] {
      ListenersForKinds(events[..|events| - 1], entityType, entityId, config);
    }
  }

  // ---------------------------------------------------------------------------
  // Interaction

  /** What can be seen of the widget from outside, in order. */
  datatype Effect =
    | Processing(shown: bool)                        // showProcessingState
    | Send(request: Request)                         // an HTTP request issued
    | ErrorDialog(message: string)                   // showError
    | TestResult(success: bool, messageKey: string)  // showTestResult (i18n key)
    | TestButton(disabled: bool, caption: string)    // the test button's state and text
    | HideTestResult
    | UrlFieldError(flagged: bool)                   // the webhook field's error class

  /** Host globals read during an interaction: `APP.widgets.system.subdomain`,
      `APP.USER.id`, `Date.now()` and `new Date().toISOString()`. */
  datatype Host = Host(subdomain: Value, currentUserId: Value, nowMs: int, isoNow: string)

  /** How the asynchronous stages settle: the entity fetch and the webhook call either
      resolve with a value or reject; `writesFailed` says whether some CRM write rejected. */
  datatype StageOutcomes = StageOutcomes(fetched: Option<Value>, reply: Option<Value>,
                                         writesFailed: bool)

  const FailureMessage: string := "Failed to process chatbot interaction"

  /** Number of writes each `response_handling` mode asks for; there is no default. */
  function ModeWriteCount(mode: Value): nat {
    if mode == Str("note") || mode == Str("task") then 1
    else if mode == Str("both") then 2
    else 0
  }

  /** A write that posts the webhook's message for the given entity. */
  predicate CarriesMessage(w: Request, message: Value, entityId: Value) {
    (w.body.Notes? && |w.body.notes| == 1 && w.body.notes[0].entityId == entityId
       && w.body.notes[0].text == NotePrefix + ToJsString(message))
    || (w.body.Tasks? && |w.body.tasks| == 1 && w.body.tasks[0].entityId == entityId
       && w.body.tasks[0].text == TaskPrefix + ToJsString(message))
  }

  /** The writes `handleChatbotResponse` issues for a webhook reply. */
  function ResponseWrites(response: Value, config: Value, entityType: string, entityId: Value,
                          host: Host): (w: seq<Request>)
    ensures !Truthy(response) || !Truthy(Get(response, "message")) ==> w == []
    ensures |w| == if Truthy(response) && Truthy(Get(response, "message"))
                   then ModeWriteCount(Get(config, "response_handling")) else 0
    ensures forall i :: 0 <= i < |w| ==> CarriesMessage(w[i], Get(response, "message"), entityId)
    ensures forall i :: 0 <= i < |w| ==>
      || w[i] == CreateChatbotNote(entityId, entityType, Get(response, "message"))
      || w[i] == CreateChatbotTask(entityId, entityType, Get(response, "message"), Null,
                                   host.currentUserId, host.nowMs)
    ensures |w| == 1 ==> (w[0].body.Notes? <==> Get(config, "response_handling") == Str("note"))
    ensures |w| == 2 ==> w[0].body.Notes? && w[1].body.Tasks?
  {
    if !Truthy(response) || !Truthy(Get(response, "message")) then []
    else
      var message := Get(response, "message");
      var mode := Get(config, "response_handling");
      var note := CreateChatbotNote(entityId, entityType, message);
      var task := CreateChatbotTask(entityId, entityType, message, Null, host.currentUserId,
                                    host.nowMs);
      if mode == Str("note") then [note]
      else if mode == Str("task") then [task]
      else if mode == Str("both") then [note, task]
      else []
  }

  /** The requests of one interaction, in the order they are issued. */
  function InteractionSends(call: TriggerCall, host: Host, out: StageOutcomes): seq<Request> {
    var fetch := GetEntityData(call.entityId, call.entityType);
    match out.fetched
    case None => [fetch]
    case Some(entityData) =>
      var hook := ProcessChatbotInteraction(call.config, entityData, Some(call.trigger),
                                            host.isoNow, host.subdomain);
      match out.reply
      case None => [fetch, hook]
      case Some(response) =>
        [fetch, hook] + ResponseWrites(response, call.config, call.entityType, call.entityId, host)
  }

  /** The chain reaches its `catch`: a stage rejected (an empty list of writes cannot). */
  predicate InteractionFails(call: TriggerCall, host: Host, out: StageOutcomes) {
    out.fetched.None? || out.reply.None? ||
    (ResponseWrites(out.reply.value, call.config, call.entityType, call.entityId, host) != []
     && out.writesFailed)
  }

  function Sends(reqs: seq<Request>): (e: seq<Effect>)
    ensures |e| == |reqs| && forall i :: 0 <= i < |reqs| ==> e[i] == Send(reqs[i])
  {
    seq(|reqs|, i requires 0 <= i < |reqs| => Send(reqs[i]))
  }

  lemma SendsAppend(a: seq<Request>, b: seq<Request>)
    ensures Sends(a + b) == Sends(a) + Sends(b)
  {
    assert forall i :: 0 <= i < |a| + |b| ==> (a + b)[i] == if i < |a| then a[i] else b[i - |a|];
  }

  /** Logging more requests keeps the log equal to `start + Sends(sent)`. */
  lemma SendsLogged(start: seq<Effect>, sent: seq<Request>, more: seq<Request>)
    ensures start + Sends(sent) + Sends(more) == start + Sends(sent + more)
  {
    SendsAppend(sent, more);
  }

  lemma LogRegroup(start: seq<Effect>, a: seq<Effect>, b: seq<Effect>, c: seq<Effect>,
                   d: seq<Effect>)
    ensures start + a + b + c + d == start + (a + b + c + d)
    ensures start + a + b + d == start + (a + b + [] + d)
  {
  }

  /** Everything one `triggerChatbot` call does, in order. */
  function InteractionEffects(call: TriggerCall, host: Host, out: StageOutcomes): seq<Effect> {
    [Processing(true)]
    + Sends(InteractionSends(call, host, out))
    + (if InteractionFails(call, host, out) then [ErrorDialog(FailureMessage)] else [])
    + [Processing(false)]
  }

  /** The indicator is shown first and hidden last on every path, and not touched
      in between; at most one error dialog is shown, exactly when a stage rejected. */
  lemma InteractionBracketed(call: TriggerCall, host: Host, out: StageOutcomes)
    ensures var e := InteractionEffects(call, host, out);
      && |e| >= 3
      && e[0] == Processing(true) && e[|e| - 1] == Processing(false)
      && (forall i :: 0 < i < |e| - 1 ==> !e[i].Processing?)
      && (ErrorDialog(FailureMessage) in e <==> InteractionFails(call, host, out))
      && (forall i :: 0 <= i < |e| - 1 && e[i].ErrorDialog? ==> i == |e| - 2)
  {
    var e := InteractionEffects(call, host, out);
    var sends := Sends(InteractionSends(call, host, out));
    var tail := if InteractionFails(call, host, out) then [ErrorDialog(FailureMessage)] else [];
    assert e == [Processing(true)] + sends + tail + [Processing(false)];
    assert forall i :: 0 < i <= |sends| ==> e[i] == sends[i - 1];
    assert forall i :: 0 < i <= |sends| ==> e[i].Send?;
    assert forall i :: |sends| < i < |e| - 1 ==> e[i] == tail[0];
  }

  /** The stages run in order: the entity fetch first, the webhook call only after a
      fetch that resolved, CRM writes only after a webhook reply with a truthy message. */
  lemma InteractionOrder(call: TriggerCall, host: Host, out: StageOutcomes)
    ensures var s := InteractionSends(call, host, out);
      && |s| >= 1
      && s[0] == GetEntityData(call.entityId, call.entityType)
      && (|s| >= 2 <==> out.fetched.Some?)
      && (|s| >= 2 ==> s[1].base == External(Get(call.config, "webhook_url"))
                       && s[1].body.ToWebhook? && s[1].body.payload.Interaction?
                       && s[1].body.payload.trigger == call.trigger
                       && s[1].body.payload.entityData == out.fetched.value)
      && (out.fetched.Some? ==>
            s[1] == ProcessChatbotInteraction(call.config, out.fetched.value, Some(call.trigger),
                                              host.isoNow, host.subdomain))
      && (out.fetched.Some? && out.reply.Some? ==>
            s[2..] == ResponseWrites(out.reply.value, call.config, call.entityType,
                                     call.entityId, host))
      && (out.fetched.Some? && out.reply.None? ==> |s| == 2)
      && (|s| > 2 ==> out.reply.Some? && Truthy(Get(out.reply.value, "message")))
  {
  }

  /** The configuration of a lead card listening to `status_changed` only, with no
      `response_handling`. */
  function ScenarioConfig(): Value {
    Obj(map["webhook_url" := Str("https://x/hook"), "agent_id" := Str("a1"),
            "events" := Arr([Str("status_changed")])])
  }

  /** With that configuration on lead 42, a status change on lead 42 triggers exactly
      once, with the tag `status_changed`. */
  lemma LeadStatusRouting()
    ensures CardGate(ScenarioConfig())
    ensures AutoTriggerListeners(ScenarioConfig(), "lcard", Num(42)).Returned?
    ensures Dispatch(AutoTriggerListeners(ScenarioConfig(), "lcard", Num(42)).value,
                     "pipeline:status:changed", Obj(map["entity_id" := Num(42)]))
            == Returned([TriggerCall(ScenarioConfig(), "leads", Num(42), "status_changed")])
  {
    var config := ScenarioConfig();
    var listener := Listener(StatusChanged, "leads", Num(42), config);
    assert [Str("status_changed")][..0] == [];
    assert ListenersFor([Str("status_changed")], "leads", Num(42), config) == [listener];
    assert [listener][1..] == [];
    var data := Obj(map["entity_id" := Num(42)]);
    assert Dispatch([], "pipeline:status:changed", data) == Returned([]);
    assert Fire(listener, data) == [TriggerCall(config, "leads", Num(42), "status_changed")];
    assert AutoTriggerListeners(config, "lcard", Num(42)) == Returned([listener]);
    assert TopicName(listener.topic) == "pipeline:status:changed";
    assert Dispatch([listener][1..], "pipeline:status:changed", data) == Returned([]);
    assert Fire(listener, data) + [] == Fire(listener, data);
    assert Dispatch([listener], "pipeline:status:changed", data)
        == Returned([TriggerCall(config, "leads", Num(42), "status_changed")]);
  }

  /** The interaction that follows fetches lead 42, posts to the configured URL, and
      writes the reply `{message: "ok"}` nowhere: no mode is set and none is assumed. */
  lemma LeadStatusInteraction(context: Value, host: Host)
    ensures var call := TriggerCall(ScenarioConfig(), "leads", Num(42), "status_changed");
      var out := StageOutcomes(Some(context), Some(Obj(map["message" := Str("ok")])), false);
      var sends := InteractionSends(call, host, out);
      && |sends| == 2
      && sends[0].path == "/api/v4/leads/42"
      && sends[1].base == External(Str("https://x/hook")) && sends[1].path == ""
      && sends[1].body.payload.trigger == "status_changed"
      && !InteractionFails(call, host, out)
  {
    var call := TriggerCall(ScenarioConfig(), "leads", Num(42), "status_changed");
    var reply := Obj(map["message" := Str("ok")]);
    var out := StageOutcomes(Some(context), Some(reply), false);
    var fetch := GetEntityData(Num(42), "leads");
    var hook := ProcessChatbotInteraction(ScenarioConfig(), context, Some("status_changed"),
                                          host.isoNow, host.subdomain);
    LeadFetchPath();
    ScenarioWritesNothing(host);
    assert InteractionSends(call, host, out) == [fetch, hook] + [];
  }

  lemma LeadFetchPath()
    ensures GetEntityData(Num(42), "leads").path == "/api/v4/leads/42"
  {
    assert ToJsString(Num(42)) == "42" by {
      assert NatToString(42) == NatToString(4) + [DigitChar(2)];
    }
  }

  /** No `response_handling` in the configuration: the reply is written nowhere. */
  lemma ScenarioWritesNothing(host: Host)
    ensures ResponseWrites(Obj(map["message" := Str("ok")]), ScenarioConfig(), "leads", Num(42),
                           host) == []
  {
    assert Get(ScenarioConfig(), "response_handling") == Undefined;
  }

  // ---------------------------------------------------------------------------
  // Settings form guards

  /** The value jQuery's `.val()` gives: None when there is no such element. */
  predicate FieldTruthy(f: Option<string>) {
    f.Some? && f.value != ""
  }

  function FieldValue(f: Option<string>): Value {
    match f
    case None => Undefined
    case Some(s) => Str(s)
  }

  /** The passes of the test-connection click handler: both fields present and the URL valid. */
  predicate TestGuardsPass(webhookUrl: Option<string>, agentId: Option<string>, parse: UrlParser) {
    FieldTruthy(webhookUrl) && FieldTruthy(agentId) && ValidateWebhookUrl(webhookUrl.value, parse)
  }

  /** The test-connection click handler. `reachable` says whether the test request resolved. */
  function TestClickEffects(webhookUrl: Option<string>, agentId: Option<string>,
                            apiKey: Option<string>, parse: UrlParser, isoNow: string,
                            reachable: bool): (e: seq<Effect>)
    ensures (exists i :: 0 <= i < |e| && e[i].Send?) <==> TestGuardsPass(webhookUrl, agentId, parse)
    ensures !FieldTruthy(webhookUrl) || !FieldTruthy(agentId) ==>
      e == [TestResult(false, "settings.errors.webhook_required")]
    ensures FieldTruthy(webhookUrl) && FieldTruthy(agentId)
            && !ValidateWebhookUrl(webhookUrl.value, parse) ==>
      e == [TestResult(false, "settings.errors.invalid_webhook")]
    ensures TestGuardsPass(webhookUrl, agentId, parse) ==>
      && |e| == 5
      && e[0] == TestButton(true, "Testing...")
      && e[1] == HideTestResult
      && e[2] == Send(TestN8nConnection(Str(webhookUrl.value), Str(agentId.value),
                                        FieldValue(apiKey), isoNow))
      && e[3] == TestResult(reachable,
                            if reachable then "settings.test.success" else "settings.test.error")
      && e[4] == TestButton(false, "settings.test.button")
      && (forall i :: 0 <= i < |e| && e[i].TestResult? ==> e[i].success == reachable)
      && (forall i :: 0 <= i < |e| && e[i].Send? ==>
            e[i].request == TestN8nConnection(Str(webhookUrl.value), Str(agentId.value),
                                              FieldValue(apiKey), isoNow))
  {
    if !FieldTruthy(webhookUrl) || !FieldTruthy(agentId) then
      [TestResult(false, "settings.errors.webhook_required")]
    else if !ValidateWebhookUrl(webhookUrl.value, parse) then
      [TestResult(false, "settings.errors.invalid_webhook")]
    else
      var request := TestN8nConnection(Str(webhookUrl.value), Str(agentId.value),
                                       FieldValue(apiKey), isoNow);
      var e := [TestButton(true, "Testing..."),
                HideTestResult,
                Send(request),
                TestResult(reachable,
                           if reachable then "settings.test.success" else "settings.test.error"),
                TestButton(false, "settings.test.button")];
      assert e[2].Send?;
      e
  }

  /** The blur check on the webhook URL field. */
  function BlurEffects(url: Option<string>, parse: UrlParser): (e: seq<Effect>)
    ensures |e| == 1 && e[0].UrlFieldError?
    ensures !FieldTruthy(url) ==> !e[0].flagged
    ensures FieldTruthy(url) ==> (e[0].flagged <==> !ValidateWebhookUrl(url.value, parse))
  {
    if FieldTruthy(url) && !ValidateWebhookUrl(url.value, parse) then [UrlFieldError(true)]
    else [UrlFieldError(false)]
  }

  // ---------------------------------------------------------------------------
  // The Events object

  class Events {
    /** The handlers this widget has bound on `document`. */
    var listeners: seq<Listener>
    /** Whether the processing indicator is shown. */
    var processing: bool
    /** The log of outside-visible effects. */
    var effects: seq<Effect>

    constructor ()
      ensures listeners == [] && !processing && effects == []
    {
      listeners := [];
      processing := false;
      effects := [];
    }

    /** `setupEventListener(eventType, entityType, entityId, config)` */
    method SetupEventListener(eventType: Value, entityType: string, entityId: Value, config: Value)
      modifies this`listeners
      ensures listeners == old(listeners) + ListenerFor(eventType, entityType, entityId, config)
    {
      var topic := RouteFor(eventType);
      if topic.Some? {
        listeners := listeners + [Listener(topic.value, entityType, entityId, config)];
      }
    }

    /** `setupAutoTriggers(config)`; `area` and `entityId` come from `APP.widgets.system`. */
    method SetupAutoTriggers(config: Value, area: string, entityId: Value)
      returns (outcome: Outcome<()>)
      modifies this`listeners
      ensures AutoTriggerListeners(config, area, entityId).Threw? ==>
        outcome.Threw? && listeners == old(listeners)
      ensures AutoTriggerListeners(config, area, entityId).Returned? ==>
        outcome.Returned?
        && listeners == old(listeners) + AutoTriggerListeners(config, area, entityId).value
    {
      var entityType := EntityTypeFor(area);
      var events := Get(config, "events");
      if Truthy(events) && LengthPositive(events) {
        if !events.Arr? {
          return Threw;
        }
        var i := 0;
        while i < |events.items|
          invariant 0 <= i <= |events.items|
          invariant listeners ==
            old(listeners) + ListenersFor(events.items[..i], entityType, entityId, config)
        {
          assert events.items[..i + 1][..i] == events.items[..i];
          SetupEventListener(events.items[i], entityType, entityId, config);
          i := i + 1;
        }
        assert events.items[..i] == events.items;
      }
      return Returned(());
    }

    /** `card()`: binds the automatic triggers when the configuration passes the gate. */
    method Card(params: Value, area: string, entityId: Value) returns (outcome: Outcome<()>)
      modifies this`listeners
      ensures !CardGate(ConfigOf(params)) ==> outcome.Returned? && listeners == old(listeners)
      ensures CardGate(ConfigOf(params)) ==>
        match AutoTriggerListeners(ConfigOf(params), area, entityId)
        case Threw => outcome.Threw? && listeners == old(listeners)
        case Returned(added) => outcome.Returned? && listeners == old(listeners) + added
    {
      var config := ConfigOf(params);
      if !Truthy(Get(config, "webhook_url")) || !Truthy(Get(config, "agent_id")) {
        return Returned(());
      }
      outcome := SetupAutoTriggers(config, area, entityId);
    }

    /** `handleChatbotResponse(response, config, entityType, entityId)`: collects the
        write requests in a list. */
    method HandleChatbotResponse(response: Value, config: Value, entityType: string,
                                 entityId: Value, host: Host) returns (writes: seq<Request>)
      ensures writes == ResponseWrites(response, config, entityType, entityId, host)
    {
      writes := [];
      if Truthy(response) && Truthy(Get(response, "message")) {
        var message := Get(response, "message");
        var mode := Get(config, "response_handling");
        if mode == Str("note") {
          writes := writes + [CreateChatbotNote(entityId, entityType, message)];
        } else if mode == Str("task") {
          writes := writes + [CreateChatbotTask(entityId, entityType, message, Null,
                                                host.currentUserId, host.nowMs)];
        } else if mode == Str("both") {
          writes := writes + [CreateChatbotNote(entityId, entityType, message)];
          writes := writes + [CreateChatbotTask(entityId, entityType, message, Null,
                                                host.currentUserId, host.nowMs)];
        }
      }
    }

    /** The `try` block of `triggerChatbot`: fetch the record, post it to the webhook,
        handle the reply, stopping at the first stage that rejects. Every request is
        logged as it is issued; `failed` tells whether the `catch` block runs. */
    method RunStages(call: TriggerCall, host: Host, out: StageOutcomes)
      returns (failed: bool, ghost sent: seq<Request>)
      modifies this`effects
      ensures sent == InteractionSends(call, host, out)
      ensures failed == InteractionFails(call, host, out)
      ensures effects == old(effects) + Sends(sent)
    {
      var fetch := GetEntityData(call.entityId, call.entityType);
      sent := [fetch];
      effects := effects + [Send(fetch)];
      assert Sends(sent) == [Send(fetch)];
      failed := false;
      if out.fetched.None? {
        failed := true;
      } else {
        var hook := ProcessChatbotInteraction(call.config, out.fetched.value, Some(call.trigger),
                                              host.isoNow, host.subdomain);
        SendsLogged(old(effects), sent, [hook]);
        assert Sends([hook]) == [Send(hook)];
        effects := effects + [Send(hook)];
        sent := sent + [hook];
        if out.reply.None? {
          failed := true;
        } else {
          var writes := HandleChatbotResponse(out.reply.value, call.config, call.entityType,
                                              call.entityId, host);
          SendsLogged(old(effects), sent, writes);
          effects := effects + Sends(writes);
          sent := sent + writes;
          failed := writes != [] && out.writesFailed;
        }
      }
    }

    /** `triggerChatbot(config, entityType, entityId, trigger)`: shows the indicator,
        runs the stages, shows an error when one of them rejects, and hides the
        indicator on every path (the `finally` block). Nothing is re-thrown. */
    method TriggerChatbot(call: TriggerCall, host: Host, out: StageOutcomes)
      modifies this`processing, this`effects
      ensures !processing
      ensures effects == old(effects) + InteractionEffects(call, host, out)
    {
      processing := true;
      effects := effects + [Processing(true)];
      var failed, sent := RunStages(call, host, out);
      if failed {
        effects := effects + [ErrorDialog(FailureMessage)];
      }
      processing := false;
      effects := effects + [Processing(false)];
      LogRegroup(old(effects), [Processing(true)], Sends(sent), [ErrorDialog(FailureMessage)],
                 [Processing(false)]);
    }
  }
}

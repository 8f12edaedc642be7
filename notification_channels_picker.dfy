/**
 * The notification channels picker: the custom-template state machine
 * (`templateReducer`), the state it starts from, the blur validation of the
 * template inputs, and the edits it makes to the list of notification
 * handlers.
 */
module NotificationChannelsPicker {
  import opened Wrappers
  import opened JsText

  // ---------------------------------------------------------------------------
  // Template state
  // ---------------------------------------------------------------------------

  /** The three channels that can carry a template: the state keys
      `"email"`, `"slack"` and `"webhook"`. */
  datatype ChannelKey = Email | Slack | Webhook

  datatype Template = Template(subject: string, body: string)

  datatype Field = Subject | Body

  /** `templates`: a slot per channel, `None` when the channel is not
      available or its template was removed, plus the shared template. */
  datatype Templates = Templates(email: Option<Template>, slack: Option<Template>, webhook: Option<Template>, shared: Template)

  /** `TemplateState`; an `activeTab` of `None` is `null`. */
  datatype TemplateState = TemplateState(activeTab: Option<ChannelKey>, applyToAllTabs: bool, templates: Templates)

  /** The channel `TemplateInputs` edits: the shared template, a channel's
      own, or none when no tab is active (the `null` it then dispatches). */
  datatype Target = Shared | Channel(key: ChannelKey) | NoChannel

  /** The actions `templateReducer` understands, and any other. */
  datatype TemplateAction =
    | SetActiveTab(tab: Option<ChannelKey>)
    | SetApplyToAll(apply: bool)
    | UpdateTemplate(target: Target, field: Field, value: string)
    | RemoveTemplate(channel: Option<ChannelKey>)
    | Unrecognized

  const EmptyTemplate: Template := Template("", "")

  /** `templates[key]` */
  function Slot(templates: Templates, key: ChannelKey): Option<Template> {
    match key
    case Email => templates.email
    case Slack => templates.slack
    case Webhook => templates.webhook
  }

  /** `{...templates, [key]: slot}` */
  function WithSlot(templates: Templates, key: ChannelKey, slot: Option<Template>): (r: Templates)
    ensures Slot(r, key) == slot
    ensures forall other :: other != key ==> Slot(r, other) == Slot(templates, other)
    ensures r.shared == templates.shared
  {
    match key
    case Email => templates.(email := slot)
    case Slack => templates.(slack := slot)
    case Webhook => templates.(webhook := slot)
  }

  /** `template[field]` */
  function FieldOf(t: Template, field: Field): string {
    match field
    case Subject => t.subject
    case Body => t.body
  }

  /** `{...template, [field]: value}` */
  function WithField(t: Template, field: Field, value: string): (r: Template)
    ensures FieldOf(r, field) == value
    ensures forall other :: other != field ==> FieldOf(r, other) == FieldOf(t, other)
  {
    match field
    case Subject => t.(subject := value)
    case Body => t.(body := value)
  }

  /** The tab `REMOVE_TEMPLATE` switches to when it removes the active one:
      the first other channel with a template, in the order email, slack,
      webhook. The `else` branch of the source serves both a removed webhook
      and the `null` channel, and looks at email and slack only. */
  function NextTab(removed: Option<ChannelKey>, templates: Templates): Option<ChannelKey> {
    if removed == Some(Email) then
      (if templates.slack.Some? then Some(Slack) else if templates.webhook.Some? then Some(Webhook) else None)
    else if removed == Some(Slack) then
      (if templates.email.Some? then Some(Email) else if templates.webhook.Some? then Some(Webhook) else None)
    else
      (if templates.email.Some? then Some(Email) else if templates.slack.Some? then Some(Slack) else None)
  }

  /** `templateReducer(state, action)` */
  function TemplateReducer(state: TemplateState, action: TemplateAction): TemplateState {
    match action
    case SetActiveTab(tab) => state.(activeTab := tab)
    case SetApplyToAll(apply) => state.(applyToAllTabs := apply)
    case UpdateTemplate(target, field, value) =>
      (match target
       case Shared =>
         state.(templates := state.templates.(shared := WithField(state.templates.shared, field, value)))
       case Channel(key) =>
         if Slot(state.templates, key).Some? then
           state.(templates := WithSlot(state.templates, key, Some(WithField(Slot(state.templates, key).value, field, value))))
         else state
       case NoChannel => state)
    case RemoveTemplate(channel) =>
      var templates := if channel.Some? then WithSlot(state.templates, channel.value, None) else state.templates;
      if state.activeTab == channel then
        TemplateState(NextTab(channel, state.templates), state.applyToAllTabs, templates)
      else
        state.(templates := templates)
    case Unrecognized => state
  }

  /** The order tabs are listed and chosen in. */
  function Rank(key: ChannelKey): nat {
    match key
    case Email => 0
    case Slack => 1
    case Webhook => 2
  }

  // ---------------------------------------------------------------------------
  // Properties of the reducer
  // ---------------------------------------------------------------------------

  /** `SET_ACTIVE_TAB` and `SET_APPLY_TO_ALL` change only their own field;
      an unknown action changes nothing. */
  lemma ReducerSettersChangeOneField(state: TemplateState, tab: Option<ChannelKey>, value: bool)
    ensures var r := TemplateReducer(state, SetActiveTab(tab));
            r.activeTab == tab && r.applyToAllTabs == state.applyToAllTabs && r.templates == state.templates
    ensures var r := TemplateReducer(state, SetApplyToAll(value));
            r.applyToAllTabs == value && r.activeTab == state.activeTab && r.templates == state.templates
    ensures TemplateReducer(state, Unrecognized) == state
  {
  }

  /** `UPDATE_TEMPLATE` on a channel without a template, or on no channel,
      changes nothing; otherwise it sets exactly the named field of that
      channel's template and leaves every other template and field alone. */
  lemma ReducerUpdateTemplate(state: TemplateState, key: ChannelKey, field: Field, value: string)
    ensures var r := TemplateReducer(state, UpdateTemplate(Channel(key), field, value));
            && (Slot(state.templates, key).None? ==> r == state)
            && (Slot(state.templates, key).Some? ==>
                  && r.activeTab == state.activeTab && r.applyToAllTabs == state.applyToAllTabs
                  && r.templates.shared == state.templates.shared
                  && Slot(r.templates, key).Some?
                  && FieldOf(Slot(r.templates, key).value, field) == value
                  && (forall f :: f != field ==> FieldOf(Slot(r.templates, key).value, f) == FieldOf(Slot(state.templates, key).value, f))
                  && (forall other :: other != key ==> Slot(r.templates, other) == Slot(state.templates, other)))
    ensures TemplateReducer(state, UpdateTemplate(NoChannel, field, value)) == state
  {
  }

  /** `UPDATE_TEMPLATE` on `"shared"` sets the named field of the shared
      template and nothing else. */
  lemma ReducerUpdateShared(state: TemplateState, field: Field, value: string)
    ensures var r := TemplateReducer(state, UpdateTemplate(Shared, field, value));
            && r.activeTab == state.activeTab && r.applyToAllTabs == state.applyToAllTabs
            && FieldOf(r.templates.shared, field) == value
            && (forall f :: f != field ==> FieldOf(r.templates.shared, f) == FieldOf(state.templates.shared, f))
            && (forall k :: Slot(r.templates, k) == Slot(state.templates, k))
  {
  }

  /** `REMOVE_TEMPLATE` nulls the channel's template and keeps the rest.
      The active tab moves only when it was the removed channel, and then to
      the first other channel, in tab order, that still has a template, or
      to none when there is no such channel. */
  lemma ReducerRemoveTemplate(state: TemplateState, key: ChannelKey)
    ensures var r := TemplateReducer(state, RemoveTemplate(Some(key)));
            && Slot(r.templates, key).None?
            && (forall other :: other != key ==> Slot(r.templates, other) == Slot(state.templates, other))
            && r.templates.shared == state.templates.shared
            && r.applyToAllTabs == state.applyToAllTabs
            && (state.activeTab != Some(key) ==> r.activeTab == state.activeTab)
            && (state.activeTab == Some(key) ==>
                  && (r.activeTab.Some? ==>
                        && r.activeTab.value != key
                        && Slot(state.templates, r.activeTab.value).Some?
                        && (forall k :: k != key && Rank(k) < Rank(r.activeTab.value) ==> Slot(state.templates, k).None?))
                  && (r.activeTab.None? ==> forall k :: k != key ==> Slot(state.templates, k).None?))
  {
  }

  /** Removing the `null` channel while no tab is active leaves the
      templates as they were and activates email, else slack, else nothing;
      the webhook tab is never chosen on that path. */
  lemma ReducerRemoveNoChannel(state: TemplateState)
    requires state.activeTab.None?
    ensures var r := TemplateReducer(state, RemoveTemplate(None));
            && r.templates == state.templates && r.applyToAllTabs == state.applyToAllTabs
            && r.activeTab != Some(Webhook)
            && (r.activeTab == Some(Email) <==> state.templates.email.Some?)
            && (r.activeTab == Some(Slack) <==> state.templates.email.None? && state.templates.slack.Some?)
  {
  }

  /** The active tab points at a channel that has a template. */
  predicate TabHasTemplate(state: TemplateState) {
    state.activeTab.Some? ==> Slot(state.templates, state.activeTab.value).Some?
  }

  /** No action gives a channel a template it did not have. */
  lemma ReducerNeverAddsSlots(state: TemplateState, action: TemplateAction)
    ensures forall k :: Slot(TemplateReducer(state, action).templates, k).Some? ==> Slot(state.templates, k).Some?
  {
  }

  /** Every action except choosing a tab without a template keeps the
      active tab on a channel that has one; removal in particular moves it
      away from the removed channel. */
  lemma ReducerKeepsTabOnTemplate(state: TemplateState, action: TemplateAction)
    requires TabHasTemplate(state)
    requires action.SetActiveTab? ==> action.tab.None? || Slot(state.templates, action.tab.value).Some?
    ensures TabHasTemplate(TemplateReducer(state, action))
  {
    match action
    case RemoveTemplate(channel) =>
      if channel.Some? && state.activeTab == channel {
        ReducerRemoveTemplate(state, channel.value);
      }
    case _ =>
  }

  // ---------------------------------------------------------------------------
  // Reading the template inputs and validating them on blur
  // ---------------------------------------------------------------------------

  /** `channel` in `TemplateInputs`: shared when applying to all tabs,
      otherwise the active tab. */
  function InputTarget(state: TemplateState): Target {
    if state.applyToAllTabs then Shared
    else if state.activeTab.Some? then Channel(state.activeTab.value)
    else NoChannel
  }

  /** `getTemplateValue(channel, field)`: the shared field, or the channel's
      field, or `""` when that channel has no template. */
  function GetTemplateValue(state: TemplateState, target: Target, field: Field): (r: string)
    ensures target == Shared ==> r == FieldOf(state.templates.shared, field)
    ensures target.Channel? && Slot(state.templates, target.key).Some? ==> r == FieldOf(Slot(state.templates, target.key).value, field)
    ensures target.Channel? && Slot(state.templates, target.key).None? ==> r == ""
    ensures target == NoChannel ==> r == ""
  {
    match target
    case Shared => FieldOf(state.templates.shared, field)
    case Channel(key) =>
      (match Slot(state.templates, key)
       case Some(t) => FieldOf(t, field)
       case None => "")
    case NoChannel => ""
  }

  /** What `handleBlur` does besides setting the error flags. */
  datatype BlurEffect = DispatchRemove(channel: Option<ChannelKey>) | UpdateHandlers | NoEffect

  datatype BlurOutcome = BlurOutcome(subjectError: bool, bodyError: bool, effect: BlurEffect)

  /** `handleBlur()` on a subject and a body shown for a target. */
  function BlurOf(subject: string, body: string, target: Target): BlurOutcome {
    var hasSubject := Trim(subject) != "";
    var hasBody := Trim(body) != "";
    BlurOutcome(
      !hasSubject && hasBody,
      hasSubject && !hasBody,
      if !hasSubject && !hasBody && target != Shared then
        DispatchRemove(if target.Channel? then Some(target.key) else None)
      else if (hasSubject && hasBody) || target == Shared then UpdateHandlers
      else NoEffect)
  }

  /** `handleBlur()` on the values currently shown. */
  function HandleBlur(state: TemplateState): BlurOutcome {
    var target := InputTarget(state);
    BlurOf(GetTemplateValue(state, target, Subject), GetTemplateValue(state, target, Body), target)
  }

  lemma BlurOfRules(subject: string, body: string, target: Target)
    ensures var outcome := BlurOf(subject, body, target);
            && (outcome.subjectError <==> AllWhitespace(subject) && !AllWhitespace(body))
            && (outcome.bodyError <==> !AllWhitespace(subject) && AllWhitespace(body))
            && (outcome.effect.DispatchRemove? <==> AllWhitespace(subject) && AllWhitespace(body) && target != Shared)
            && (outcome.effect == UpdateHandlers <==> (!AllWhitespace(subject) && !AllWhitespace(body)) || target == Shared)
  {
    TrimBlankIff(subject);
    TrimBlankIff(body);
  }

  /** A subject error shows exactly when the subject is blank and the body
      is not, and a body error exactly in the reverse case. A template is
      removed, for the active tab, exactly when both are blank outside the
      shared template, and the handlers are updated exactly when both are
      filled or the shared template is being edited. */
  lemma HandleBlurRules(state: TemplateState)
    ensures var target := InputTarget(state);
            var blankSubject := AllWhitespace(GetTemplateValue(state, target, Subject));
            var blankBody := AllWhitespace(GetTemplateValue(state, target, Body));
            var outcome := HandleBlur(state);
            && (outcome.subjectError <==> blankSubject && !blankBody)
            && (outcome.bodyError <==> !blankSubject && blankBody)
            && (outcome.effect.DispatchRemove? <==> blankSubject && blankBody && target != Shared)
            && (outcome.effect.DispatchRemove? ==> outcome.effect.channel == state.activeTab)
            && (outcome.effect == UpdateHandlers <==> (!blankSubject && !blankBody) || target == Shared)
  {
    var target := InputTarget(state);
    var subject := GetTemplateValue(state, target, Subject);
    var body := GetTemplateValue(state, target, Body);
    assert HandleBlur(state) == BlurOf(subject, body, target);
    BlurOfRules(subject, body, target);
    BlurRemovesActiveTab(state, subject, body);
  }

  lemma BlurRemovesActiveTab(state: TemplateState, subject: string, body: string)
    ensures BlurOf(subject, body, InputTarget(state)).effect.DispatchRemove? ==>
      BlurOf(subject, body, InputTarget(state)).effect.channel == state.activeTab
  {
  }

  // ---------------------------------------------------------------------------
  // Notification handlers
  // ---------------------------------------------------------------------------

  /** A recipient; the picker only ever creates user recipients. */
  datatype Recipient = UserRecipient(userId: int) | OtherRecipient(kind: string)

  /** `template.details` */
  datatype TemplateDetails = TemplateDetails(kind: string, subject: Option<string>, body: Option<string>)

  /** `handler.template` */
  datatype HandlerTemplate = HandlerTemplate(name: string, channelType: string, details: Option<TemplateDetails>)

  /** A `NotificationHandler`. */
  datatype Handler = Handler(channelType: string, channelId: Option<int>, recipients: seq<Recipient>, template: Option<HandlerTemplate>)

  /** An entry of `templateTypeMap`. */
  datatype TemplateConfig = TemplateConfig(name: string, kind: string, stateKey: ChannelKey)

  /** `templateTypeMap[channelType]`, undefined for other channel types. */
  function TemplateTypeOf(channelType: string): Option<TemplateConfig> {
    if channelType == "channel/email" then Some(TemplateConfig("Email template", "email/handlebars-text", Email))
    else if channelType == "channel/slack" then Some(TemplateConfig("Slack template", "slack/handlebars-text", Slack))
    else if channelType == "channel/http" then Some(TemplateConfig("Webhook template", "http/handlebars-json", Webhook))
    else None
  }

  /** The map gives each channel type its own state key. */
  lemma TemplateTypesDistinct(a: string, b: string)
    requires TemplateTypeOf(a).Some? && TemplateTypeOf(b).Some?
    ensures TemplateTypeOf(a).value.stateKey == TemplateTypeOf(b).value.stateKey <==> a == b
  {
  }

  /** `shouldUpdateHandler(handler, applyToAllTabs, activeTab)` */
  function ShouldUpdateHandler(handler: Handler, applyToAllTabs: bool, activeTab: Option<ChannelKey>): bool {
    match TemplateTypeOf(handler.channelType)
    case None => false
    case Some(config) => applyToAllTabs || activeTab == Some(config.stateKey)
  }

  /** `getTemplateContent(handler, templates, applyToAllTabs)`; undefined
      (`None`) when the channel type has no state key and no shared template
      is in use. */
  function GetTemplateContent(handler: Handler, templates: Templates, applyToAllTabs: bool): Option<Template> {
    if applyToAllTabs then Some(templates.shared)
    else
      match TemplateTypeOf(handler.channelType)
      case None => None
      case Some(config) => Slot(templates, config.stateKey)
  }

  /** A handler of an unknown channel type is never updated; any other is
      updated when the shared template is in use or its tab is active. The
      content is the shared template when it is in use, else the channel's. */
  lemma HandlerSelectionRules(handler: Handler, templates: Templates, applyToAllTabs: bool, activeTab: Option<ChannelKey>)
    ensures TemplateTypeOf(handler.channelType).None? ==> !ShouldUpdateHandler(handler, applyToAllTabs, activeTab)
    ensures TemplateTypeOf(handler.channelType).Some? ==>
      (ShouldUpdateHandler(handler, applyToAllTabs, activeTab) <==>
         applyToAllTabs || activeTab == Some(TemplateTypeOf(handler.channelType).value.stateKey))
    ensures applyToAllTabs ==> GetTemplateContent(handler, templates, applyToAllTabs) == Some(templates.shared)
    ensures !applyToAllTabs && TemplateTypeOf(handler.channelType).Some? ==>
      GetTemplateContent(handler, templates, applyToAllTabs) == Slot(templates, TemplateTypeOf(handler.channelType).value.stateKey)
  {
  }

  /** JavaScript truthiness of an optional string. */
  predicate Filled(s: Option<string>) {
    s.Some? && s.value != ""
  }

  /** The template a handler carries, if its channel type has a state key and
      both its subject and its body are non-empty: the filter at the top of
      the `forEach` in `extractTemplateData`. */
  function CopyableTemplate(handler: Handler): Option<(ChannelKey, Template)> {
    if handler.template.None? then None
    else
      var t := handler.template.value;
      match TemplateTypeOf(t.channelType)
      case None => None
      case Some(config) =>
        if t.details.Some? && Filled(t.details.value.subject) && Filled(t.details.value.body) then
          Some((config.stateKey, Template(t.details.value.subject.value, t.details.value.body.value)))
        else None
  }

  /** The templates before any handler is looked at. */
  function InitialTemplates(hasEmail: bool, hasSlack: bool, hasWebhook: bool): Templates {
    Templates(
      if hasEmail then Some(EmptyTemplate) else None,
      if hasSlack then Some(EmptyTemplate) else None,
      if hasWebhook then Some(EmptyTemplate) else None,
      EmptyTemplate)
  }

  /** The number of channels with a template slot. */
  function SlotCount(templates: Templates): nat {
    (if templates.email.Some? then 1 else 0) + (if templates.slack.Some? then 1 else 0) + (if templates.webhook.Some? then 1 else 0)
  }

  /** `[templates.email, templates.slack, templates.webhook].filter(Boolean)` */
  function ActiveTemplates(templates: Templates): (r: seq<Template>)
    ensures |r| == SlotCount(templates)
  {
    (if templates.email.Some? then [templates.email.value] else [])
      + (if templates.slack.Some? then [templates.slack.value] else [])
      + (if templates.webhook.Some? then [templates.webhook.value] else [])
  }

  /** One step of the `forEach`: copy the handler's template into its slot if
      the slot exists, then, if exactly one slot exists, copy that slot into
      the shared template. */
  function ApplyHandler(templates: Templates, handler: Handler): Templates {
    match CopyableTemplate(handler)
    case None => templates
    case Some(copy) =>
      var key := copy.0;
      var copied := if Slot(templates, key).Some? then WithSlot(templates, key, Some(copy.1)) else templates;
      var active := ActiveTemplates(copied);
      if |active| == 1 then copied.(shared := active[0]) else copied
  }

  /** `extractTemplateData()` */
  function ExtractedTemplates(handlers: seq<Handler>, hasEmail: bool, hasSlack: bool, hasWebhook: bool): Templates
    decreases |handlers|
  {
    if handlers == [] then InitialTemplates(hasEmail, hasSlack, hasWebhook)
    else ApplyHandler(ExtractedTemplates(handlers[..|handlers| - 1], hasEmail, hasSlack, hasWebhook), handlers[|handlers| - 1])
  }

  /** `extractTemplateData()`, which fills a fresh `templates` object field by
      field as it walks the handlers. */
  method ExtractTemplateData(handlers: seq<Handler>, hasEmail: bool, hasSlack: bool, hasWebhook: bool) returns (templates: Templates)
    ensures templates == ExtractedTemplates(handlers, hasEmail, hasSlack, hasWebhook)
  {
    templates := InitialTemplates(hasEmail, hasSlack, hasWebhook);
    var i := 0;
    while i < |handlers|
      invariant 0 <= i <= |handlers|
      invariant templates == ExtractedTemplates(handlers[..i], hasEmail, hasSlack, hasWebhook)
    {
      assert handlers[..i + 1][..i] == handlers[..i];
      var handler := handlers[i];
      var copy := CopyableTemplate(handler);
      if copy.Some? {
        var details := copy.value.1;
        if copy.value.0 == Email && templates.email.Some? {
          templates := templates.(email := Some(templates.email.value.(subject := details.subject)));
          templates := templates.(email := Some(templates.email.value.(body := details.body)));
        } else if copy.value.0 == Slack && templates.slack.Some? {
          templates := templates.(slack := Some(templates.slack.value.(subject := details.subject)));
          templates := templates.(slack := Some(templates.slack.value.(body := details.body)));
        } else if copy.value.0 == Webhook && templates.webhook.Some? {
          templates := templates.(webhook := Some(templates.webhook.value.(subject := details.subject)));
          templates := templates.(webhook := Some(templates.webhook.value.(body := details.body)));
        }
        var activeTemplates := ActiveTemplates(templates);
        if |activeTemplates| == 1 {
          templates := templates.(shared := templates.shared.(subject := activeTemplates[0].subject));
          templates := templates.(shared := templates.shared.(body := activeTemplates[0].body));
        }
      }
      i := i + 1;
    }
    assert handlers[..i] == handlers;
  }

  /** The template of the last handler that can be copied into `key`'s slot. */
  function LastCopy(handlers: seq<Handler>, key: ChannelKey): Option<Template>
    decreases |handlers|
  {
    if handlers == [] then None
    else
      var last := CopyableTemplate(handlers[|handlers| - 1]);
      if last.Some? && last.value.0 == key then Some(last.value.1)
      else LastCopy(handlers[..|handlers| - 1], key)
  }

  /** The number of channels that are available. */
  function AvailableCount(hasEmail: bool, hasSlack: bool, hasWebhook: bool): nat {
    (if hasEmail then 1 else 0) + (if hasSlack then 1 else 0) + (if hasWebhook then 1 else 0)
  }

  /** Some handler passes the filter at the top of the `forEach`. */
  predicate AnyCopyable(handlers: seq<Handler>) {
    exists i :: 0 <= i < |handlers| && CopyableTemplate(handlers[i]).Some?
  }

  /** The channel whose slot exists, when exactly one does. */
  function OnlyChannel(hasEmail: bool, hasSlack: bool, hasWebhook: bool): ChannelKey
    requires AvailableCount(hasEmail, hasSlack, hasWebhook) == 1
  {
    if hasEmail then Email else if hasSlack then Slack else Webhook
  }

  lemma ActiveTemplatesOfOne(templates: Templates, key: ChannelKey)
    requires Slot(templates, key).Some?
    requires forall k :: k != key ==> Slot(templates, k).None?
    ensures ActiveTemplates(templates) == [Slot(templates, key).value]
  {
    assert Slot(templates, Email) == templates.email;
    assert Slot(templates, Slack) == templates.slack;
    assert Slot(templates, Webhook) == templates.webhook;
  }

  /** A slot exists exactly when its channel is available. Its template is
      that of the last handler for the channel with both a subject and a
      body, or empty when there is none. */
  lemma {:induction false} ExtractedSlots(handlers: seq<Handler>, hasEmail: bool, hasSlack: bool, hasWebhook: bool, key: ChannelKey)
    ensures var templates := ExtractedTemplates(handlers, hasEmail, hasSlack, hasWebhook);
            var available := match key case Email => hasEmail case Slack => hasSlack case Webhook => hasWebhook;
            && (Slot(templates, key).Some? <==> available)
            && (available ==> Slot(templates, key).value == LastCopy(handlers, key).GetOr(EmptyTemplate))
    decreases |handlers|
  {
    if handlers != [] {
      var front := handlers[..|handlers| - 1];
      ExtractedSlots(front, hasEmail, hasSlack, hasWebhook, key);
    }
  }

  /** One step keeps the set of existing slots. It changes the shared
      template only when exactly one slot exists, and then makes it equal to
      that slot. */
  lemma ApplyHandlerEffect(before: Templates, handler: Handler)
    ensures var after := ApplyHandler(before, handler);
            && (forall k :: Slot(after, k).Some? <==> Slot(before, k).Some?)
            && (CopyableTemplate(handler).None? ==> after == before)
            && (SlotCount(before) != 1 ==> after.shared == before.shared)
            && (SlotCount(before) == 1 && CopyableTemplate(handler).Some? ==>
                  forall k :: Slot(before, k).Some? ==> Slot(after, k) == Some(after.shared))
  {
    var copy := CopyableTemplate(handler);
    if copy.Some? {
      var key := copy.value.0;
      var copied := if Slot(before, key).Some? then WithSlot(before, key, Some(copy.value.1)) else before;
      assert forall k :: Slot(copied, k).Some? <==> Slot(before, k).Some?;
      assert SlotCount(copied) == SlotCount(before) by {
        assert Slot(copied, Email) == copied.email && Slot(before, Email) == before.email;
        assert Slot(copied, Slack) == copied.slack && Slot(before, Slack) == before.slack;
        assert Slot(copied, Webhook) == copied.webhook && Slot(before, Webhook) == before.webhook;
      }
      if SlotCount(before) == 1 {
        forall k | Slot(before, k).Some?
          ensures ActiveTemplates(copied) == [Slot(copied, k).value]
        {
          assert forall j :: j != k ==> Slot(copied, j).None?;
          ActiveTemplatesOfOne(copied, k);
        }
      }
    }
  }

  /** The shared template stays empty unless exactly one channel is
      available and some handler has a complete template; then it ends as
      that channel's template. */
  lemma {:induction false} ExtractedShared(handlers: seq<Handler>, hasEmail: bool, hasSlack: bool, hasWebhook: bool)
    ensures var templates := ExtractedTemplates(handlers, hasEmail, hasSlack, hasWebhook);
            && (AvailableCount(hasEmail, hasSlack, hasWebhook) != 1 || !AnyCopyable(handlers) ==> templates.shared == EmptyTemplate)
            && (AvailableCount(hasEmail, hasSlack, hasWebhook) == 1 && AnyCopyable(handlers) ==>
                  Slot(templates, OnlyChannel(hasEmail, hasSlack, hasWebhook)) == Some(templates.shared))
    decreases |handlers|
  {
    if handlers != [] {
      var front := handlers[..|handlers| - 1];
      var last := handlers[|handlers| - 1];
      ExtractedShared(front, hasEmail, hasSlack, hasWebhook);
      var before := ExtractedTemplates(front, hasEmail, hasSlack, hasWebhook);
      ApplyHandlerEffect(before, last);
      AnyCopyableSnoc(handlers);
      ExtractedSlotCount(front, hasEmail, hasSlack, hasWebhook);
      if AvailableCount(hasEmail, hasSlack, hasWebhook) == 1 {
        ExtractedSlots(front, hasEmail, hasSlack, hasWebhook, OnlyChannel(hasEmail, hasSlack, hasWebhook));
      }
    }
  }

  lemma AnyCopyableSnoc(handlers: seq<Handler>)
    requires handlers != []
    ensures AnyCopyable(handlers) <==> AnyCopyable(handlers[..|handlers| - 1]) || CopyableTemplate(handlers[|handlers| - 1]).Some?
  {
    var front := handlers[..|handlers| - 1];
    if AnyCopyable(front) {
      var i :| 0 <= i < |front| && CopyableTemplate(front[i]).Some?;
      assert handlers[i] == front[i];
    }
    if AnyCopyable(handlers) && CopyableTemplate(handlers[|handlers| - 1]).None? {
      var i :| 0 <= i < |handlers| && CopyableTemplate(handlers[i]).Some?;
      assert i < |front| && front[i] == handlers[i];
    }
  }

  lemma ExtractedSlotCount(handlers: seq<Handler>, hasEmail: bool, hasSlack: bool, hasWebhook: bool)
    ensures SlotCount(ExtractedTemplates(handlers, hasEmail, hasSlack, hasWebhook)) == AvailableCount(hasEmail, hasSlack, hasWebhook)
  {
    ExtractedSlots(handlers, hasEmail, hasSlack, hasWebhook, Email);
    ExtractedSlots(handlers, hasEmail, hasSlack, hasWebhook, Slack);
    ExtractedSlots(handlers, hasEmail, hasSlack, hasWebhook, Webhook);
  }

  /** The initial `activeTab`: the first available channel in tab order. */
  function InitialActiveTab(hasEmail: bool, hasSlack: bool, hasWebhook: bool): Option<ChannelKey> {
    if hasEmail then Some(Email) else if hasSlack then Some(Slack) else if hasWebhook then Some(Webhook) else None
  }

  /** `initialTemplateState` */
  function InitialTemplateState(handlers: seq<Handler>, hasEmail: bool, hasSlack: bool, hasWebhook: bool): TemplateState {
    TemplateState(InitialActiveTab(hasEmail, hasSlack, hasWebhook), false, ExtractedTemplates(handlers, hasEmail, hasSlack, hasWebhook))
  }

  /** The initial tab is the first available channel, none when none is,
      and it starts on a channel that has a template slot. */
  lemma InitialStateRules(handlers: seq<Handler>, hasEmail: bool, hasSlack: bool, hasWebhook: bool)
    ensures var state := InitialTemplateState(handlers, hasEmail, hasSlack, hasWebhook);
            && !state.applyToAllTabs
            && (state.activeTab == Some(Email) <==> hasEmail)
            && (state.activeTab == Some(Slack) <==> !hasEmail && hasSlack)
            && (state.activeTab == Some(Webhook) <==> !hasEmail && !hasSlack && hasWebhook)
            && TabHasTemplate(state)
  {
    var state := InitialTemplateState(handlers, hasEmail, hasSlack, hasWebhook);
    if state.activeTab.Some? {
      ExtractedSlots(handlers, hasEmail, hasSlack, hasWebhook, state.activeTab.value);
    }
  }

  /** `handler.template.details.subject?.trim() || ...body?.trim()` is truthy. */
  predicate HasNonBlankTemplate(handler: Handler) {
    && handler.template.Some?
    && handler.template.value.details.Some?
    && var d := handler.template.value.details.value;
       (d.subject.Some? && Trim(d.subject.value) != "") || (d.body.Some? && Trim(d.body.value) != "")
  }

  /** `hasExistingTemplates`: `notificationHandlers.some(...)` */
  function HasExistingTemplates(handlers: seq<Handler>): bool
    decreases |handlers|
  {
    if handlers == [] then false
    else HasNonBlankTemplate(handlers[0]) || HasExistingTemplates(handlers[1..])
  }

  /** Some handler has a template whose subject or body is not all whitespace. */
  lemma {:induction false} HasExistingTemplatesIff(handlers: seq<Handler>)
    ensures HasExistingTemplates(handlers) <==>
      exists i :: 0 <= i < |handlers| && handlers[i].template.Some? && handlers[i].template.value.details.Some? &&
        var d := handlers[i].template.value.details.value;
        (d.subject.Some? && !AllWhitespace(d.subject.value)) || (d.body.Some? && !AllWhitespace(d.body.value))
    decreases |handlers|
  {
    if handlers != [] {
      HasExistingTemplatesIff(handlers[1..]);
      forall i | 0 <= i < |handlers| && handlers[i].template.Some? && handlers[i].template.value.details.Some?
        ensures var d := handlers[i].template.value.details.value;
          && (d.subject.Some? ==> (Trim(d.subject.value) != "" <==> !AllWhitespace(d.subject.value)))
          && (d.body.Some? ==> (Trim(d.body.value) != "" <==> !AllWhitespace(d.body.value)))
      {
        var d := handlers[i].template.value.details.value;
        if d.subject.Some? { TrimBlankIff(d.subject.value); }
        if d.body.Some? { TrimBlankIff(d.body.value); }
      }
      forall i | 0 <= i < |handlers[1..]| ensures handlers[1..][i] == handlers[i + 1] { }
    }
  }

  // ---------------------------------------------------------------------------
  // The template section
  // ---------------------------------------------------------------------------

  /** `canShowTemplates` */
  predicate CanShowTemplates(enableTemplates: bool, hasEmail: bool, hasSlack: bool, hasWebhook: bool) {
    enableTemplates && (hasEmail || hasSlack || hasWebhook)
  }

  /** Whether the "Share between channels" checkbox is shown. */
  predicate ShowsSharedCheckbox(hasEmail: bool, hasSlack: bool, hasWebhook: bool) {
    AvailableCount(hasEmail, hasSlack, hasWebhook) >= 2
  }

  /** The `Tabs` `onChange` handler. */
  function OnTabChange(state: TemplateState, tab: Option<ChannelKey>): TemplateState {
    if !state.applyToAllTabs then TemplateReducer(state, SetActiveTab(tab)) else state
  }

  /** The section shows only with templates enabled and some channel
      available, and the checkbox only with at least two channels. Choosing
      a tab does nothing while the shared template is in use, and otherwise
      changes only the active tab. */
  lemma TemplateSectionRules(state: TemplateState, tab: Option<ChannelKey>, enableTemplates: bool, hasEmail: bool, hasSlack: bool, hasWebhook: bool)
    ensures CanShowTemplates(enableTemplates, hasEmail, hasSlack, hasWebhook) <==> enableTemplates && AvailableCount(hasEmail, hasSlack, hasWebhook) > 0
    ensures ShowsSharedCheckbox(hasEmail, hasSlack, hasWebhook) <==> (hasEmail && hasSlack) || (hasEmail && hasWebhook) || (hasSlack && hasWebhook)
    ensures state.applyToAllTabs ==> OnTabChange(state, tab) == state
    ensures !state.applyToAllTabs ==>
      OnTabChange(state, tab).activeTab == tab && OnTabChange(state, tab).templates == state.templates && !OnTabChange(state, tab).applyToAllTabs
  {
  }

  // ---------------------------------------------------------------------------
  // Editing the list of handlers
  // ---------------------------------------------------------------------------

  /** A `ChannelToAddOption`. */
  datatype ChannelToAdd = HttpChannel(channelId: int) | EmailChannel | SlackChannel

  /** `channel.type` */
  function ChannelTypeOf(channel: ChannelToAdd): string {
    match channel
    case HttpChannel(_) => "channel/http"
    case EmailChannel => "channel/email"
    case SlackChannel => "channel/slack"
  }

  /** `newChannel` in `addChannel`; `user` is the current user's id, if any. */
  function NewHandler(channel: ChannelToAdd, user: Option<int>): Handler {
    match channel
    case HttpChannel(id) => Handler("channel/http", Some(id), [], None)
    case EmailChannel => Handler("channel/email", None, if user.Some? then [UserRecipient(user.value)] else [], None)
    case SlackChannel => Handler("channel/slack", None, [], None)
  }

  /** `addChannel(channel)`: the list passed to `onChange`. */
  method AddChannel(handlers: seq<Handler>, channel: ChannelToAdd, user: Option<int>) returns (updated: seq<Handler>)
    ensures |updated| == |handlers| + 1
    ensures updated[..|handlers|] == handlers
    ensures updated[|handlers|] == NewHandler(channel, user)
  {
    var newChannel: Handler;
    match channel {
      case HttpChannel(id) =>
        newChannel := Handler(ChannelTypeOf(channel), Some(id), [], None);
      case EmailChannel =>
        newChannel := Handler(ChannelTypeOf(channel), None, if user.Some? then [UserRecipient(user.value)] else [], None);
      case SlackChannel =>
        newChannel := Handler(ChannelTypeOf(channel), None, [], None);
    }
    updated := handlers + [newChannel];
  }

  /** The new handler has the added channel's type, no template, a channel
      id only for webhooks, and as recipients the current user for email
      (when there is one) and nobody otherwise. */
  lemma NewHandlerShape(channel: ChannelToAdd, user: Option<int>)
    ensures var h := NewHandler(channel, user);
            && h.channelType == ChannelTypeOf(channel)
            && h.template.None?
            && (h.channelId.Some? <==> channel.HttpChannel?)
            && (channel.HttpChannel? ==> h.channelId.value == channel.channelId)
            && (|h.recipients| > 0 <==> channel.EmailChannel? && user.Some?)
            && (|h.recipients| > 0 ==> h.recipients == [UserRecipient(user.value)])
  {
  }

  /** `onChannelChange(oldConfig, newConfig)`: the list passed to `onChange`. */
  function OnChannelChange(handlers: seq<Handler>, oldConfig: Handler, newConfig: Handler): seq<Handler> {
    seq(|handlers|, i requires 0 <= i < |handlers| => if handlers[i] == oldConfig then newConfig else handlers[i])
  }

  /** The list keeps its length; exactly the entries equal to the old
      configuration become the new one, and no other entry changes. */
  lemma OnChannelChangeReplaces(handlers: seq<Handler>, oldConfig: Handler, newConfig: Handler)
    ensures var updated := OnChannelChange(handlers, oldConfig, newConfig);
            && |updated| == |handlers|
            && (forall i :: 0 <= i < |handlers| && handlers[i] != oldConfig ==> updated[i] == handlers[i])
            && (forall i :: 0 <= i < |handlers| && handlers[i] == oldConfig ==> updated[i] == newConfig)
            && (oldConfig !in handlers ==> updated == handlers)
  {
  }

  /** `notificationHandlers.filter(value => value !== channel)` */
  function WithoutHandler(handlers: seq<Handler>, channel: Handler): (r: seq<Handler>)
    ensures |r| <= |handlers|
    decreases |handlers|
  {
    if handlers == [] then []
    else (if handlers[0] == channel then [] else [handlers[0]]) + WithoutHandler(handlers[1..], channel)
  }

  /** Exactly the other handlers remain, each as many times as before. */
  lemma {:induction false} WithoutHandlerKeepsOthers(handlers: seq<Handler>, channel: Handler)
    ensures channel !in WithoutHandler(handlers, channel)
    ensures forall h :: h != channel ==> multiset(WithoutHandler(handlers, channel))[h] == multiset(handlers)[h]
    decreases |handlers|
  {
    if handlers != [] {
      WithoutHandlerKeepsOthers(handlers[1..], channel);
      assert handlers == [handlers[0]] + handlers[1..];
    }
  }

  /** Removing a handler that occurs once, at `i`, leaves the others in order. */
  lemma {:induction false} WithoutHandlerAt(handlers: seq<Handler>, channel: Handler, i: nat)
    requires i < |handlers| && handlers[i] == channel
    requires forall j :: 0 <= j < |handlers| && j != i ==> handlers[j] != channel
    ensures WithoutHandler(handlers, channel) == handlers[..i] + handlers[i + 1..]
    decreases |handlers|
  {
    if i == 0 {
      WithoutAbsent(handlers[1..], channel);
    } else {
      WithoutHandlerAt(handlers[1..], channel, i - 1);
      assert handlers[..i] == [handlers[0]] + handlers[1..][..i - 1];
      assert handlers[i + 1..] == handlers[1..][i..];
    }
  }

  /** Removing a handler that is not in the list changes nothing. */
  lemma {:induction false} WithoutAbsent(handlers: seq<Handler>, channel: Handler)
    requires channel !in handlers
    ensures WithoutHandler(handlers, channel) == handlers
    decreases |handlers|
  {
    if handlers != [] {
      WithoutAbsent(handlers[1..], channel);
      assert [handlers[0]] + handlers[1..] == handlers;
    }
  }

  /** The template action `onRemoveChannel` dispatches for a removed handler. */
  function RemovalAction(channel: Handler, enableTemplates: bool): Option<TemplateAction> {
    if !enableTemplates then None
    else if channel.channelType == "channel/email" then Some(RemoveTemplate(Some(Email)))
    else if channel.channelType == "channel/slack" then Some(RemoveTemplate(Some(Slack)))
    else if channel.channelType == "channel/http" then Some(RemoveTemplate(Some(Webhook)))
    else None
  }

  /** `onRemoveChannel(channel)`: the list passed to `onChange` and the
      template action dispatched, if any. */
  function OnRemoveChannel(handlers: seq<Handler>, channel: Handler, enableTemplates: bool): (seq<Handler>, Option<TemplateAction>) {
    (WithoutHandler(handlers, channel), RemovalAction(channel, enableTemplates))
  }

  /** A template is removed only when templates are enabled and the handler
      has a templated channel type, and then for that channel's state key. */
  lemma RemovalActionRule(channel: Handler, enableTemplates: bool)
    ensures var action := RemovalAction(channel, enableTemplates);
            && (action.Some? <==> enableTemplates && TemplateTypeOf(channel.channelType).Some?)
            && (action.Some? ==> action.value == RemoveTemplate(Some(TemplateTypeOf(channel.channelType).value.stateKey)))
  {
  }

  /** The template a handler receives from `updateTemplateForActiveChannel`. */
  function TemplateFor(config: TemplateConfig, channelType: string, content: Template): HandlerTemplate {
    HandlerTemplate(config.name, channelType, Some(TemplateDetails(config.kind, Some(content.subject), Some(content.body))))
  }

  /** One handler of the `map` in `updateTemplateForActiveChannel`. */
  function UpdateHandler(handler: Handler, state: TemplateState): Handler {
    if !ShouldUpdateHandler(handler, state.applyToAllTabs, state.activeTab) then handler
    else
      match TemplateTypeOf(handler.channelType)
      case None => handler
      case Some(config) =>
        match GetTemplateContent(handler, state.templates, state.applyToAllTabs)
        case None => handler
        case Some(content) => handler.(template := Some(TemplateFor(config, handler.channelType, content)))
  }

  /** `updateTemplateForActiveChannel()`: the list passed to `onChange`, or
      `None` when templates are disabled and `onChange` is not called. */
  function UpdateTemplateForActiveChannel(handlers: seq<Handler>, state: TemplateState, enableTemplates: bool): Option<seq<Handler>> {
    if !enableTemplates then None
    else Some(seq(|handlers|, i requires 0 <= i < |handlers| => UpdateHandler(handlers[i], state)))
  }

  /** Nothing happens with templates disabled. Otherwise the list keeps its
      length; a handler that should not be updated, or whose content is
      missing, is kept as it is; every other handler changes only in its
      template, which takes the name and type of its channel type and the
      subject and body of the content. */
  lemma UpdateTemplateRules(handlers: seq<Handler>, state: TemplateState, enableTemplates: bool)
    ensures !enableTemplates ==> UpdateTemplateForActiveChannel(handlers, state, enableTemplates).None?
    ensures enableTemplates ==>
      var updated := UpdateTemplateForActiveChannel(handlers, state, enableTemplates);
      && updated.Some? && |updated.value| == |handlers|
      && forall i :: 0 <= i < |handlers| ==>
           var h := handlers[i];
           var content := GetTemplateContent(h, state.templates, state.applyToAllTabs);
           && (!ShouldUpdateHandler(h, state.applyToAllTabs, state.activeTab) || content.None? ==> updated.value[i] == h)
           && (ShouldUpdateHandler(h, state.applyToAllTabs, state.activeTab) && content.Some? ==>
                 var config := TemplateTypeOf(h.channelType).value;
                 && updated.value[i].(template := h.template) == h
                 && updated.value[i].template.Some?
                 && updated.value[i].template.value.name == config.name
                 && updated.value[i].template.value.channelType == h.channelType
                 && updated.value[i].template.value.details == Some(TemplateDetails(config.kind, Some(content.value.subject), Some(content.value.body))))
  {
  }
}

/**
 * The decisions `generate_thank_you` and `get_ai_config_status` (backend/main.py) take
 * around the provider call: which provider and model, the "provider:model" label, the
 * variation name reported as the prompt strategy, the evaluation attributes sent with
 * the request, and the records both endpoints return.
 */
module Generation {
  import opened Wrappers
  import opened Text
  import opened AiConfig
  import opened Personalize
  import opened AnthropicSplit

  const ConfigKey: string := "thank-you-generator"
  const DefaultProvider: string := "openai"
  const AnthropicDefaultModel: string := "claude-3-sonnet-20240229"
  const OpenAIDefaultModel: string := "gpt-4"

  /** `ai_config.provider.name if ai_config.provider else "openai"`. */
  function ProviderName(config: AIConfig): (r: string) {
    if config.provider.Some? then config.provider.value.name else DefaultProvider
  }

  /** Only the provider name "anthropic" selects Anthropic; everything else goes to OpenAI. */
  predicate UsesAnthropic(config: AIConfig) {
    ProviderName(config) == "anthropic"
  }

  /** The model named in the response (lines 292 and 295). */
  function ModelUsed(config: AIConfig): (r: string) {
    if UsesAnthropic(config) then
      (if config.model.Some? then config.model.value.name else AnthropicDefaultModel)
    else
      (if config.model.Some? then config.model.value.name else OpenAIDefaultModel)
  }

  /** The request sent to the chosen provider's SDK. */
  datatype ProviderCall =
    | OpenAIChat(model: string, messages: seq<Message>)
    | AnthropicMessages(model: string, system: string, messages: seq<Message>)

  /**
   * `generate_with_anthropic` or `generate_with_openai` as far as the backend decides it:
   * each chooses its model with its own default, and Anthropic gets the split prompt.
   */
  function ProviderCallFor(config: AIConfig, messages: seq<Message>): (r: ProviderCall) {
    if UsesAnthropic(config) then
      AnthropicMessages(
        if config.model.Some? then config.model.value.name else AnthropicDefaultModel,
        LastSystemPrompt(messages), NonSystem(messages))
    else
      OpenAIChat(if config.model.Some? then config.model.value.name else OpenAIDefaultModel, messages)
  }

  /** `f"{provider}:{model_used}"`. */
  function ModelLabel(provider: string, model: string): (r: string) {
    provider + ":" + model
  }

  /** Reads a label back: the text before the first ':' and the text after it. */
  function SplitLabel(text: string): (r: (string, string))
    decreases |text|
  {
    if text == [] then ("", "")
    else if text[0] == ':' then ("", text[1..])
    else
      var rest := SplitLabel(text[1..]);
      ([text[0]] + rest.0, rest.1)
  }

  /** The prompt strategy reported: the tracker's variation key, else "config-active" when a config exists. */
  function VariationName(tracker: Option<Tracker>, configPresent: bool): (r: string) {
    if tracker.Some? && tracker.value.variationKey.Some? then tracker.value.variationKey.value
    else if configPresent then "config-active"
    else "fallback"
  }

  /** `request.gift_description[:20] if request.gift_description else "unknown"`. */
  function GiftType(description: string): (r: string) {
    if description != [] then description[..if |description| < 20 then |description| else 20]
    else "unknown"
  }

  /** The context attributes `generate_thank_you` evaluates the AI Config with. */
  datatype GenerationAttributes = GenerationAttributes(
    requestType: string,
    giftType: string,
    relationship: string,
    hasAdditionalNotes: bool,
    hasNextMeeting: bool)

  function AttributesFor(request: ThankYouRequest): (r: GenerationAttributes) {
    GenerationAttributes(
      "generation",
      GiftType(request.giftDescription),
      request.relationship,
      request.additionalNotes.Some? && !IsBlank(Python, request.additionalNotes.value),
      request.nextMeeting.Some? && !IsBlank(Python, request.nextMeeting.value))
  }

  datatype GenerationMetadata = GenerationMetadata(
    provider: string,
    aiConfigKey: string,
    variationName: string,
    configEnabled: bool)

  /** `ThankYouResponse`; `model_parameters` is not part of this model. */
  datatype ThankYouResponse = ThankYouResponse(
    thankYouNote: string,
    aiModelUsed: string,
    promptStrategy: string,
    metadata: GenerationMetadata)

  /** The one refusal the backend decides itself: a disabled AI Config. */
  datatype GenerationError = ConfigDisabled

  /** What one generation does: the provider call it makes and the response it returns. */
  datatype Generation = Generation(call: ProviderCall, response: ThankYouResponse)

  /**
   * `generate_thank_you` once the AI Config has been evaluated: `reply` is the text the
   * provider returned for the call.
   */
  function GenerateThankYou(request: ThankYouRequest, config: AIConfig, tracker: Option<Tracker>, reply: string)
    : (r: Result<Generation, GenerationError>)
    ensures r.Failure? <==> !config.enabled
    ensures r.Success? ==>
      var g := r.value;
      && g.call == ProviderCallFor(config, PersonalizedMessages(request, config))
      && g.call.AnthropicMessages? == UsesAnthropic(config)
      && g.response.thankYouNote == reply
      && g.response.aiModelUsed == ModelLabel(ProviderName(config), g.call.model)
      && g.response.promptStrategy == g.response.metadata.variationName
      && g.response.metadata == GenerationMetadata(
           ProviderName(config), ConfigKey, VariationName(tracker, true), true)
  {
    if !config.enabled then Failure(ConfigDisabled)
    else
      var call := ProviderCallFor(config, PersonalizedMessages(request, config));
      var provider := ProviderName(config);
      var variation := VariationName(tracker, true);
      Success(Generation(call, ThankYouResponse(
        reply,
        ModelLabel(provider, ModelUsed(config)),
        variation,
        GenerationMetadata(provider, ConfigKey, variation, config.enabled))))
  }

  /** What `get_ai_config_status` returns. */
  datatype StatusReport =
    | Report(
        status: string,
        currentProvider: string,
        currentModel: string,
        promptStrategy: string,
        aiConfigKey: string,
        advancedOptionsEnabled: bool,
        configEnabled: bool,
        variationName: string)
    | StatusError(error: string)

  /**
   * `get_ai_config_status`: `evaluation` is the AI Config evaluation (or the message of
   * the exception it raised), `flag` the advanced-options flag (likewise).
   */
  function ConfigStatus(evaluation: Result<(AIConfig, Option<Tracker>), string>, flag: Result<bool, string>)
    : (r: StatusReport)
    ensures r.StatusError? <==> evaluation.Failure? || flag.Failure?
    ensures evaluation.Failure? ==> r == StatusError(evaluation.error)
    ensures evaluation.Success? && flag.Failure? ==> r == StatusError(flag.error)
    ensures r.Report? ==>
      && r.status == (if evaluation.value.0.enabled then "active" else "disabled")
      && r.currentProvider ==
           (if evaluation.value.0.provider.Some? then evaluation.value.0.provider.value.name else "unknown")
      && r.currentModel ==
           (if evaluation.value.0.model.Some? then evaluation.value.0.model.value.name else "unknown")
      && r.configEnabled == evaluation.value.0.enabled
      && r.advancedOptionsEnabled == flag.value
      && r.promptStrategy == r.variationName == VariationName(evaluation.value.1, true)
      && r.aiConfigKey == ConfigKey
  {
    match evaluation
    case Failure(e) => StatusError(e)
    case Success((config, tracker)) =>
      match flag
      case Failure(e) => StatusError(e)
      case Success(advanced) =>
        var variation := VariationName(tracker, true);
        Report(
          if config.enabled then "active" else "disabled",
          if config.provider.Some? then config.provider.value.name else "unknown",
          if config.model.Some? then config.model.value.name else "unknown",
          variation,
          ConfigKey,
          advanced,
          config.enabled,
          variation)
  }
}

/** What the generation and status decisions promise, and how they agree with each other. */
module GenerationProperties {
  import opened Wrappers
  import opened Text
  import opened AiConfig
  import opened Personalize
  import opened PersonalizeProperties
  import opened AnthropicSplit
  import opened Generation

  /** A label reads back as the provider and model it was made from, when the provider has no ':'. */
  lemma {:induction false} LabelRoundTrip(provider: string, model: string)
    requires ':' !in provider
    ensures SplitLabel(ModelLabel(provider, model)) == (provider, model)
  {
    if provider == [] {
      assert ModelLabel(provider, model) == [':'] + model;
    } else {
      assert ModelLabel(provider, model)[1..] == ModelLabel(provider[1..], model);
      LabelRoundTrip(provider[1..], model);
      assert [provider[0]] + provider[1..] == provider;
    }
  }

  /**
   * Anthropic is chosen exactly when the config names the provider "anthropic"; the model
   * the provider is asked for is the model the response reports, and a config without a
   * model falls back to the provider's own default.
   */
  lemma ProviderSelection(config: AIConfig, messages: seq<Message>)
    ensures UsesAnthropic(config) <==> config.provider == Some(ProviderConfig("anthropic"))
    ensures ProviderCallFor(config, messages).AnthropicMessages? <==> UsesAnthropic(config)
    ensures ProviderCallFor(config, messages).model == ModelUsed(config)
    ensures config.model.Some? ==> ModelUsed(config) == config.model.value.name
    ensures config.model.None? ==>
      ModelUsed(config) == (if UsesAnthropic(config) then AnthropicDefaultModel else OpenAIDefaultModel)
    ensures config.provider.None? ==> ProviderCallFor(config, messages) == OpenAIChat(ModelUsed(config), messages)
  {
    if config.provider.None? {
      assert DefaultProvider != "anthropic";
    }
  }

  /** Anthropic receives the last system message as its system prompt and the rest of the conversation in order. */
  lemma AnthropicCallSplitsPrompt(config: AIConfig, messages: seq<Message>)
    requires UsesAnthropic(config)
    ensures var call := ProviderCallFor(config, messages);
      && call.AnthropicMessages?
      && (forall m :: m in call.messages ==> m in messages && m.role != "system")
      && (forall m :: m in messages && m.role != "system" ==> m in call.messages)
      && ((exists i :: 0 <= i < |messages| && messages[i].role == "system") || call.system == "")
  {
    forall m {
      NonSystemMembers(messages, m);
    }
    if forall k :: 0 <= k < |messages| ==> messages[k].role != "system" {
      NoSystemMessageEmptyPrompt(messages);
    }
  }

  /** With no configured messages, Anthropic gets the fallback system prompt and the single user prompt. */
  lemma FallbackAnthropicCall(request: ThankYouRequest, config: AIConfig)
    requires UsesAnthropic(config) && !HasMessages(config)
    ensures ProviderCallFor(config, PersonalizedMessages(request, config)) ==
      AnthropicMessages(ModelUsed(config), FallbackSystemPrompt, [Message("user", FallbackUserPrompt(request))])
  {
    var ms := PersonalizedMessages(request, config);
    assert "user" != "system";
    LastSystemMessageWins(ms, 0);
    assert ms[..1][..0] == [];
    assert NonSystem(ms[..1]) == [];
    assert NonSystem(ms) == [ms[1]];
  }

  /**
   * The variation reported: the tracker's key when it has one; otherwise "config-active",
   * and "fallback" only when no config was produced.
   */
  lemma VariationNameFacts(tracker: Option<Tracker>, configPresent: bool)
    ensures tracker.Some? && tracker.value.variationKey.Some? ==>
      VariationName(tracker, configPresent) == tracker.value.variationKey.value
    ensures !(tracker.Some? && tracker.value.variationKey.Some?) ==>
      && (VariationName(tracker, configPresent) == "fallback" <==> !configPresent)
      && (configPresent ==> VariationName(tracker, configPresent) == "config-active")
  {
    assert "fallback" != "config-active";
  }

  /** The gift type is the first (at most) twenty characters of a non-empty description, else "unknown". */
  lemma GiftTypeFacts(description: string)
    ensures description == [] ==> GiftType(description) == "unknown"
    ensures description != [] ==>
      && |GiftType(description)| == (if |description| < 20 then |description| else 20)
      && GiftType(description) == description[..|GiftType(description)|]
      && |GiftType(description)| > 0
  {
  }

  /**
   * The has_additional_notes and has_next_meeting attributes agree with whether the prompt
   * table holds the matching variable.
   */
  lemma AttributesMatchTemplate(request: ThankYouRequest)
    ensures var a := AttributesFor(request);
      var names := Names(TemplateVariables(request));
      && (a.hasAdditionalNotes <==> AdditionalNotes in names)
      && (a.hasNextMeeting <==> NextMeeting in names)
      && a.requestType == "generation"
      && a.relationship == request.relationship
  {
    TemplateNames(request);
  }

  /**
   * For an enabled config that names both its provider and its model, the status endpoint
   * reports the same provider, model and prompt strategy a generation with it reports.
   */
  lemma StatusAgreesWithGeneration(
    request: ThankYouRequest, config: AIConfig, tracker: Option<Tracker>, reply: string, advanced: bool)
    requires config.enabled && config.provider.Some? && config.model.Some?
    ensures var status := ConfigStatus(Success((config, tracker)), Success(advanced));
      var generated := GenerateThankYou(request, config, tracker, reply);
      && status.Report? && generated.Success?
      && status.status == "active"
      && ModelLabel(status.currentProvider, status.currentModel) == generated.value.response.aiModelUsed
      && status.promptStrategy == generated.value.response.promptStrategy
  {
  }

  /**
   * Without a provider in the config the status endpoint reports "unknown", while a
   * generation with the same config goes to OpenAI and reports "openai".
   */
  lemma StatusDiffersFromGenerationWithoutProvider(
    request: ThankYouRequest, config: AIConfig, tracker: Option<Tracker>, reply: string, advanced: bool)
    requires config.enabled && config.provider.None?
    ensures var status := ConfigStatus(Success((config, tracker)), Success(advanced));
      var generated := GenerateThankYou(request, config, tracker, reply);
      && status.Report? && generated.Success?
      && status.currentProvider == "unknown"
      && generated.value.response.metadata.provider == "openai"
      && generated.value.call.OpenAIChat?
  {
  }

  /**
   * Without a model in the config the status endpoint reports "unknown", while a
   * generation with the same config calls and reports the provider's default model.
   */
  lemma StatusDiffersFromGenerationWithoutModel(
    request: ThankYouRequest, config: AIConfig, tracker: Option<Tracker>, reply: string, advanced: bool)
    requires config.enabled && config.model.None?
    ensures var status := ConfigStatus(Success((config, tracker)), Success(advanced));
      var generated := GenerateThankYou(request, config, tracker, reply);
      && status.Report? && generated.Success?
      && status.currentModel == "unknown" != generated.value.call.model
      && generated.value.call.model == (if UsesAnthropic(config) then AnthropicDefaultModel else OpenAIDefaultModel)
      && generated.value.response.aiModelUsed == ModelLabel(ProviderName(config), generated.value.call.model)
  {
  }
}

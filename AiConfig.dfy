/**
 * The AI Config SDK's records, as the backend reads them: a configuration with an
 * optional model, an optional provider and an optional list of prompt messages,
 * and the tracker that comes with it.
 */
module AiConfig {
  import opened Wrappers

  /** `LDMessage`: a prompt message with a role ("system", "user", "assistant", ...). */
  datatype Message = Message(role: string, content: string)

  /** `ModelConfig`; its open-ended `parameters` map is not part of this model. */
  datatype ModelConfig = ModelConfig(name: string)

  /** `ProviderConfig`. */
  datatype ProviderConfig = ProviderConfig(name: string)

  /** `AIConfig` as returned for one evaluation of the "thank-you-generator" config. */
  datatype AIConfig = AIConfig(
    enabled: bool,
    model: Option<ModelConfig>,
    messages: Option<seq<Message>>,
    provider: Option<ProviderConfig>)

  /** The SDK's tracker; `variationKey` is `Some` when it has a `_variation_key` attribute. */
  datatype Tracker = Tracker(variationKey: Option<string>)
}

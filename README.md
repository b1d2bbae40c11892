# Wedding thank-you generator: prompt shaping and gift form

This project models the logic at the core of the wedding thank-you generator:

- **Backend (`backend/main.py`).**
  - `build_personalized_messages` builds the table of template variables from a thank-you request. It maps the relationship keyword to a phrase and adds the optional notes and next-meeting fields only when they are not blank, stripped. It then substitutes `{name}` placeholders in every message of the AI Config, one variable at a time in insertion order, or falls back to a fixed system/user prompt.
  - `generate_with_anthropic` splits the messages into a single system prompt and the conversation.
  - `generate_thank_you` and `get_ai_config_status` decide the provider, the model, the `provider:model` label, the variation name reported as the prompt strategy, the `giftType` evaluation attribute, and the records they return.
- **Frontend (`frontend/src/components/ThankYouForm.tsx`).** The gift form is a class whose fields are the component state: `formData`, `advancedOptionsEnabled` and `loadingAdvancedOptions`. Its methods are the handlers: input change, reset, submit with its required-field guard, and the advanced-options flag check. The calls the form makes outward (`onGenerate`, `onReset`, toasts) are recorded in fields so that contracts can speak about them.

Layout:

- `Wrappers.dfy`: `Option` and `Result`.
- `Text.dfy`: Python's `str.strip()` and JavaScript's `String.prototype.trim()`. They are one trim, parameterised by the whitespace set each language uses. The file also has Python's `str.replace` (replace every occurrence, left to right) and substring containment.
- `AiConfig.dfy`: the LaunchDarkly AI SDK records (`AIConfig`, `LDMessage`, `ModelConfig`, `ProviderConfig`, tracker) as plain datatypes.
- `Personalize.dfy`:
  - the template-variable table and the substitution, as specification functions;
  - the source's loops, as methods proved against those functions (`BuildTemplateVariables`, `SubstituteMessages`, `BuildPersonalizedMessages`);
  - the properties, in module `PersonalizeProperties`.
- `AnthropicSplit.dfy`: the split loop of `generate_with_anthropic` and its specification.
- `Generation.dfy`: the provider, model, label, variation, `giftType`, response and status decisions, with their properties in module `GenerationProperties`.
- `ThankYouForm.dfy`: the form class, with properties of its record operations in module `FormProperties`.

Python's dict keeps insertion order, so the template-variable table is an ordered sequence of (name, value) pairs. A name is one of the five variable names the backend defines (`VarName`), and `Key` gives the text between the braces. The two trims differ on purpose. Python's `strip()` also removes U+001C..U+001F and U+0085. JavaScript's `trim()` also removes U+FEFF.

## Model

| member | source | states |
|---|---|---|
| Text.Trim | backend/main.py:231-232 | The stripped text is the original with a run of whitespace cut off in front and a run cut off behind (`CutFrom`), so it occurs inside the original. It is empty exactly when every character is whitespace. Otherwise it neither starts nor ends with whitespace. |
| Text.TrimStart | backend/main.py:231-232 | Removes exactly the leading run of whitespace: the result is a suffix, it does not start with whitespace, and everything cut off is whitespace. |
| Text.TrimEnd | backend/main.py:231-232 | Removes exactly the trailing run of whitespace: the result is a prefix, it does not end with whitespace, and everything cut off is whitespace. |
| Text.TrimEmptyIffAllSpace | backend/main.py:231 | A string strips to nothing if and only if it is all whitespace. This is the `x and x.strip()` blank test. |
| Text.TrimsToEmpty | frontend/src/components/ThankYouForm.tsx:52 | The blank test `!s.trim()` is true exactly when every character is whitespace. |
| Text.TrimIdempotent | backend/main.py:232 | A general law of `strip()` (and of `trim()`), not a step the source takes: stripping the stored value again would change nothing. |
| Text.ReplaceAll | backend/main.py:245 | No contract: the body is Python's `str.replace` for a non-empty pattern (left to right, no overlapping matches, replacement text not scanned again). ReplaceAbsent, ReplaceKeepsPrefix and ReplaceAfterPrefix state its properties. |
| Text.ReplaceAbsent | backend/main.py:245 | `str.replace` leaves a text without the pattern unchanged. |
| Text.ReplaceKeepsPrefix | backend/main.py:245 | Replacement does not touch a prefix that cannot begin the pattern. |
| Text.ReplaceAfterPrefix | backend/main.py:245 | After a prefix that cannot start the pattern, the pattern is replaced by the replacement text and the rest is processed on. |
| Personalize.RelationshipPhrase | backend/main.py:215-227 | No contract: the body is `relationship_context.get(relationship, relationship)`. RelationshipPhrases states every value. |
| Personalize.FilledIn | backend/main.py:231-235 | No contract: the body is the `x and x.strip()` test with the stripped value. FilledInMeaning and OptionalEntryFacts state its meaning. |
| Personalize.TemplateVariables | backend/main.py:224-235 | No contract: the body is the three fixed entries, then the notes and next-meeting entries. BuildTemplateVariables is proved equal to it; TemplateNames, FixedVariableValues and OptionalVariableValues state its contents. |
| Personalize.SubstituteAll | backend/main.py:244-245 | No contract: the body replaces each entry's placeholder in insertion order. SubstituteMessages is proved equal to it; SubstituteAllSequential, SubstituteAllAbsent, SubstituteAllKeepsPlaceholder and SubstituteFillsPlaceholder state its behaviour. |
| Personalize.HasMessages | backend/main.py:240 | No contract: the body is the truthiness of `config.messages` (present and not empty). PersonalizedMessages and FallbackPrompt state what each branch gives. |
| Personalize.FallbackUserPrompt | backend/main.py:252 | No contract: the body is the f-string. FallbackPrompt states that it holds the gift description and the giver's name. |
| Personalize.RelationshipPhrases | backend/main.py:215-227 | "family", "friend", "colleague" and "family friend" map to "family member", "dear friend", "colleague" and "family friend". Any other relationship passes through unchanged. |
| Personalize.Placeholder | backend/main.py:245 | A placeholder is the name wrapped in one '{' and one '}'. |
| Personalize.SubstitutedAll | backend/main.py:240-247 | One message out per configured message, in order, each keeping its role. |
| Personalize.PersonalizedMessages | backend/main.py:240-253 | With configured messages, the output has the same length and the same role at every index. Without them, it is exactly two messages, "system" then "user". |
| Personalize.BuildTemplateVariables | backend/main.py:224-235 | The dict insertions build exactly the specified table: three fixed entries, then the notes and next-meeting entries when they are filled in. |
| Personalize.SubstituteMessages | backend/main.py:238-247 | The nested loops replace every variable in turn in every message, appending in order. The result is the specified substitution, whose placeholder behaviour the SubstituteAll lemmas state. |
| Personalize.BuildPersonalizedMessages | backend/main.py:211-255 | The whole function returns the specified personalised messages, or the fallback prompt. |
| PersonalizeProperties.SamePlaceholderStart | backend/main.py:245 | Two placeholders of plain names that start at the same position are the same placeholder. |
| PersonalizeProperties.ReplaceKeepsPlaceholder | backend/main.py:245 | Replacing one variable's placeholder never destroys the placeholder of a different plain name. |
| PersonalizeProperties.SubstituteAllSequential | backend/main.py:244-245 | Substituting a table is substituting its first part, then substituting the rest in the result. Variables are applied one at a time in insertion order. |
| PersonalizeProperties.SubstituteAllAbsent | backend/main.py:244-245 | A content with no placeholder of any table name is left as it is. |
| PersonalizeProperties.KeysArePlainAndDistinct | backend/main.py:224-235 | The five variable names contain no braces and are pairwise distinct. |
| PersonalizeProperties.SubstituteAllKeepsPlaceholder | backend/main.py:244-245 | A placeholder whose name is not in the table survives the whole substitution. |
| PersonalizeProperties.SubstituteKeepsPrefix | backend/main.py:244-245 | Text without a '{' at the front of a content passes through every replacement untouched. |
| PersonalizeProperties.ReplaceSkipsPlaceholder | backend/main.py:245 | Replacing one plain name's placeholder never starts inside the placeholder of another plain name, so that placeholder is kept whole. |
| PersonalizeProperties.SubstituteFillsPlaceholder | backend/main.py:244-245 | In a content `t + {name} + u`, where `t` holds no '{' and the table holds the name, the placeholder becomes that name's value (the one a dict lookup finds), `t` is kept and `u` is substituted on. This holds when no value holds a '{'. |
| PersonalizeProperties.TrailingPlaceholderFilled | backend/main.py:244-245 | A content that is brace-free text followed by a table variable's placeholder comes out as that text followed by the variable's value, when no variable's value holds a '{'. |
| PersonalizeProperties.TwoPlaceholdersFilled | backend/main.py:244-245 | A content such as "Thank {gift_giver_name} for the {gift_description}" (two placeholders of table names after brace-free texts) comes out with both values in place of their placeholders and the texts kept, when no variable's value holds a '{'. |
| PersonalizeProperties.LookupFindsNames | backend/main.py:224-235 | A name is in the table exactly when a lookup finds a value for it. |
| PersonalizeProperties.LookupConcat | backend/main.py:231-235 | Adding entries after the existing ones does not change the value of a name already present. |
| PersonalizeProperties.NamesConcat | backend/main.py:231-235 | The names of a table built in two parts are the names of both parts. |
| PersonalizeProperties.OptionalEntryFacts | backend/main.py:231-235 | An optional field contributes its own name exactly when it is filled in, with the stripped value. |
| PersonalizeProperties.FilledInMeaning | backend/main.py:231-235 | An optional field counts as filled in exactly when it is present and not all whitespace. Its value is then the stripped text. |
| PersonalizeProperties.TemplateNames | backend/main.py:224-235 | The table always holds the three fixed names. It holds `additional_notes` (`next_meeting`) exactly when that field is filled in. |
| PersonalizeProperties.FixedVariableValues | backend/main.py:224-228 | The table maps the gift description and giver name to the request's text, and the relationship to its phrase. |
| PersonalizeProperties.OptionalVariableValues | backend/main.py:231-235 | `additional_notes` (`next_meeting`) is a variable if and only if the field is present and not blank, and then its value is the stripped field. |
| PersonalizeProperties.MessageWithoutPlaceholdersUnchanged | backend/main.py:240-247 | A configured message with no placeholder for any table name comes out identical. |
| PersonalizeProperties.UnknownPlaceholderKept | backend/main.py:244-245 | A placeholder for a name outside the table stays in the personalised text. |
| PersonalizeProperties.OmittedFieldPlaceholderKept | backend/main.py:231-245 | When the notes (next meeting) are missing or blank, a literal `{additional_notes}` (`{next_meeting}`) stays in the text. |
| PersonalizeProperties.PlaceholderMessageFilled | backend/main.py:240-247 | In a configured message `t + {name} + u` whose `t` holds no '{', with a table variable's placeholder, the personalised message keeps its role, its content is `t`, the variable's value and the substituted `u`, so the value appears in the text. This holds when no variable's value holds a '{'. |
| PersonalizeProperties.FallbackPrompt | backend/main.py:248-253 | Without configured messages, the system prompt is the fixed assistant prompt. The user prompt contains the gift description and the giver's name. |
| AnthropicSplit.LastSystemPrompt | backend/main.py:185-190 | No contract: the content of the last "system" message, or "". SplitForAnthropic is proved equal to it; LastSystemMessageWins and NoSystemMessageEmptyPrompt state its properties. |
| AnthropicSplit.NonSystem | backend/main.py:191-195 | No contract: the messages that are not "system" messages, in order. SplitForAnthropic is proved equal to it; NonSystemConcat, NonSystemMembers and NoSystemMessageKeepsAll state its properties. |
| AnthropicSplit.SplitForAnthropic | backend/main.py:185-195 | The loop yields the last system message's content as the system prompt, and the non-system messages in order. |
| AnthropicSplit.NoSystemMessageEmptyPrompt | backend/main.py:185-190 | With no system message, the system prompt is empty. |
| AnthropicSplit.LastSystemMessageWins | backend/main.py:188-190 | The system prompt is the content of the last system message: a later one overrides an earlier one. |
| AnthropicSplit.NonSystemConcat | backend/main.py:188-195 | The split of a concatenation is the concatenation of the splits, so relative order is kept. |
| AnthropicSplit.NonSystemMembers | backend/main.py:191-195 | A message is in the conversation exactly when it is in the input and is not a system message. |
| AnthropicSplit.NoSystemMessageKeepsAll | backend/main.py:191-195 | Without system messages, the conversation is the input unchanged. |
| Generation.ProviderName | backend/main.py:287 | No contract: the body is `ai_config.provider.name if ai_config.provider else "openai"`. ProviderSelection states its effect. |
| Generation.UsesAnthropic | backend/main.py:290 | No contract: the body is `provider == "anthropic"`. ProviderSelection states that only that name selects Anthropic. |
| Generation.ModelUsed | backend/main.py:290-295 | No contract: the configured model, else the chosen provider's default. ProviderSelection and StatusDiffersFromGenerationWithoutModel state its properties. |
| Generation.ProviderCallFor | backend/main.py:185-206 | No contract: Anthropic gets its model (default claude-3-sonnet-20240229), the last system prompt and the other messages; OpenAI gets its model (default gpt-4, line 153) and all messages. ProviderSelection, AnthropicCallSplitsPrompt and FallbackAnthropicCall state its properties. |
| Generation.ModelLabel | backend/main.py:310 | No contract: the body is `f"{provider}:{model_used}"`. LabelRoundTrip states that it reads back. |
| Generation.VariationName | backend/main.py:301-306 | No contract: the tracker's variation key, else "config-active", else "fallback". VariationNameFacts states each case. |
| Generation.GiftType | backend/main.py:273 | No contract: the body is `gift_description[:20] if gift_description else "unknown"`. GiftTypeFacts states its value. |
| Generation.AttributesFor | backend/main.py:270-276 | No contract: the evaluation attributes of the request. AttributesMatchTemplate ties its has-flags to the prompt table. |
| Generation.GenerateThankYou | backend/main.py:280-319 | Fails exactly when the config is disabled. Otherwise it calls the chosen provider with the personalised messages. The label is the provider, ':' and the model that was called. The prompt strategy equals the metadata's variation name. The metadata has the provider, the config key "thank-you-generator" and `config_enabled`. |
| Generation.ConfigStatus | backend/main.py:332-364 | An error report exactly when the config evaluation or the flag check failed, carrying the first failure's message. Otherwise the status is "active" for an enabled config and "disabled" otherwise. The provider and model are the config's, or "unknown" when absent. The prompt strategy equals the variation name. |
| GenerationProperties.LabelRoundTrip | backend/main.py:310 | A "provider:model" label reads back as its provider and model when the provider has no ':'. |
| GenerationProperties.ProviderSelection | backend/main.py:287-295 | Anthropic is chosen exactly when the provider is named "anthropic". The model called is the model reported. A missing model defaults to claude-3-sonnet-20240229 (Anthropic) or gpt-4 (otherwise). A missing provider sends the unsplit messages to OpenAI. |
| GenerationProperties.AnthropicCallSplitsPrompt | backend/main.py:185-206 | Anthropic receives only non-system messages, all of them, and an empty system prompt when there is no system message. |
| GenerationProperties.FallbackAnthropicCall | backend/main.py:185-206 | Without configured messages, Anthropic gets the fixed system prompt and the single user prompt. |
| GenerationProperties.VariationNameFacts | backend/main.py:301-306 | The tracker's variation key when it has one. Otherwise "config-active" when a config is present, and "fallback" if and only if none is. |
| GenerationProperties.GiftTypeFacts | backend/main.py:273 | "unknown" for an empty description. Otherwise the description's first min(20, length) characters, never empty. |
| GenerationProperties.AttributesMatchTemplate | backend/main.py:272-276 | `hasAdditionalNotes` and `hasNextMeeting` are true exactly when the prompt table holds the matching variable. |
| GenerationProperties.StatusAgreesWithGeneration | backend/main.py:287-358 | For an enabled config that names its provider and model, the status is "active". Its provider and model form the generation's label, and its prompt strategy is the generation's. |
| GenerationProperties.StatusDiffersFromGenerationWithoutProvider | backend/main.py:350-353 | Without a provider, the status reports "unknown" while a generation reports "openai" and calls OpenAI. |
| GenerationProperties.StatusDiffersFromGenerationWithoutModel | backend/main.py:292-353 | Without a model, the status reports "unknown" while a generation calls and labels the provider's default model (claude-3-sonnet-20240229 or gpt-4). |
| Form.Submittable | frontend/src/components/ThankYouForm.tsx:52 | No contract: both required fields hold a character that is not JavaScript whitespace. SubmittableMeaning ties it to the `!x.trim()` test; HandleSubmit guards on it. |
| Form.RequestOf | frontend/src/App.tsx:21 | No contract: the posted JSON body, all five fields as strings. SubmittedOptionalFields and OptionsOffGiveFixedVariables state what the backend makes of it. |
| Form.Set | frontend/src/components/ThankYouForm.tsx:65-68 | The named field takes the new value, and every other field keeps its value. |
| Form.ThankYouForm.constructor | frontend/src/components/ThankYouForm.tsx:20-29 | The form starts with the initial record, advanced options off, loading on, and nothing recorded. The invariant holds: no options while loading, and empty optional fields while options are off. |
| Form.ThankYouForm.CheckAdvancedOptions | frontend/src/components/ThankYouForm.tsx:32-47 | Runs once, while loading (the mount effect). Advanced options are on exactly when the flag loaded as true: off on a failed fetch. Loading is over after any outcome, and nothing else changes. |
| Form.ThankYouForm.HandleSubmit | frontend/src/components/ThankYouForm.tsx:49-63 | When the handler runs: a form whose giver name or description trims to nothing shows the fill-in error and never calls `onGenerate`. Otherwise `onGenerate` gets the current record untrimmed, then the success or the failure toast. With advanced options off, that record's optional fields are empty. The record is unchanged. |
| Form.ThankYouForm.HandleInputChange | frontend/src/components/ThankYouForm.tsx:65-68 | The record becomes the old one with exactly the named field set. The notes and next-meeting inputs exist only while advanced options are on (lines 143-180), so only then can they change. |
| Form.ThankYouForm.HandleReset | frontend/src/components/ThankYouForm.tsx:70-80 | From any state, the record becomes the initial record (so resetting twice equals resetting once), then `onReset` is called once and "Form reset" is shown. |
| FormProperties.SetLaws | frontend/src/components/ThankYouForm.tsx:65-68 | Setting a field to its current value changes nothing. A second set of the same field overrides the first. Sets of different fields commute. |
| FormProperties.SubmittableMeaning | frontend/src/components/ThankYouForm.tsx:52 | The guard passes exactly when neither required field trims to the empty string (the source's `!x.trim()` test, negated). The trimmed text is then a part of the field. |
| FormProperties.InitialFormFacts | frontend/src/components/ThankYouForm.tsx:20-26 | The initial record is empty except relationship "friend". It cannot be submitted, and its optional fields are empty. |
| FormProperties.SubmittedOptionalFields | frontend/src/components/ThankYouForm.tsx:57-58 | The optional fields of a submitted form become prompt variables exactly when they hold a character that Python does not treat as whitespace, then stripped. |
| FormProperties.OptionsOffGiveFixedVariables | frontend/src/components/ThankYouForm.tsx:143-180 | A record with empty optional fields, such as every record submitted while advanced options are off, gives exactly the three fixed prompt variables. |

## Left out

- The LaunchDarkly, OpenAI and Anthropic SDK calls and client initialisation from the environment (backend/main.py:15-64, 79-137, 173-174, 200-207): they are foreign services. The evaluated AI Config, the tracker, the flag value and the provider's reply become parameters.
- The OpenAI `api_params` (backend/main.py:154-171) and Anthropic's `max_tokens`/`temperature`: they depend on float comparisons, and their only effect is the shape of an SDK call. `ModelConfig` keeps only the model name, and the response's `model_parameters` is not modelled.
- The `hash(str(request.dict()))` user key (backend/main.py:271): Python randomises string hashing per process.
- Tracker `track_success`/`track_error`, the traceback print, the FastAPI routes, CORS and `uvicorn` startup: these are I/O.
- Generation.GenerateThankYou: returns `ConfigDisabled` for a disabled config. In the source the 503 `HTTPException` is raised inside the `try` and caught by `except Exception`, so the client receives a 500 with detail "Generation failed: 503: AI Config is currently disabled". The HTTP wrapping is not modelled. Failures of the SDK or provider calls are not modelled either.
- Generation.VariationName: takes whether a config is present as a boolean. At both call sites `ai_config` is an object and always truthy, so "fallback" is never produced there. The tracker's `_variation_key` is modelled as an optional text. A key attribute that is present but `None` is not modelled.
- Generation.ConfigStatus: reports "disabled" for a disabled config. The frontend's `AIConfigStatus` type admits only 'active' and 'error'. The frontend status component (frontend/src/components/AIConfigStatus.tsx) is not part of this model.
- `get_advanced_options_status` and `/test-generate` (backend/main.py:366-437), and the root and health endpoints: they only forward SDK results or constants.
- frontend/src/App.tsx, frontend/src/main.tsx, frontend/tailwind.config.js and all rendering and animation. The page posts `formData` unchanged (Form.RequestOf). App.tsx catches every error of its fetch, so in the assembled page the form's failure toast is never shown. The form takes the outcome of `onGenerate` as a parameter and models both.
- PersonalizeProperties.SubstituteFillsPlaceholder: stated only for values without '{', and for a placeholder whose preceding text holds no '{' (later placeholders are covered by applying it again to the rest). A value that itself holds a placeholder is substituted again by later variables: in a message holding `{gift_description}`, a description "{gift_giver_name}" ends up as the giver's name. So "the value appears in the output" is not a general promise of the source.
- Form.ThankYouForm.HandleInputChange: the input's `name` is one of the five form fields. An arbitrary name would add a new key to the record, which the model does not represent.
- Form.ThankYouForm.HandleSubmit: the two required inputs carry the HTML `required` attribute (frontend/src/components/ThankYouForm.tsx:102-119), so the browser blocks a submit with an empty field before the handler runs. The browser's own check is not modelled: the method models the handler, so in the page its fill-in error shows only for a field of whitespace alone.
- Form.ThankYouForm.CheckAdvancedOptions: the flag fetch is a parameter, either a loaded boolean or a failure. A response body without a boolean `enabled` is not modelled. The model assumes the mount effect runs once, as in a production build: under `React.StrictMode` (frontend/src/main.tsx:8) a development build runs it twice, and the second result can arrive after loading has ended. Each handler is also one atomic step: `handleSubmit` awaits `onGenerate` before its toast (frontend/src/components/ThankYouForm.tsx:58-59), and other handlers running during that wait are not modelled.

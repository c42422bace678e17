# TerminalAgent core, modelled in Dafny

TerminalAgent is a terminal chat client for three hosted language models:
OpenAI's ChatGPT, Google's Gemini and xAI's Grok. This project models its
decision logic and proves properties of that model.

**Retry governor.** `RetryManager` sorts a failed request into one of five
kinds: connection, server, quota, auth or other. It computes an exponential
back-off. It runs an operation at most `maxRetries` times and stops early on
quota, auth and other failures. The operation is modelled as an abstract
function from the attempt number to that attempt's outcome. Each sleep and
each `onRetry` call is recorded.

**Provider registry.** `AIProvider` holds the three adapters and a mutable
`currentProvider` key.
- It initialises adapters from the configured default keys.
- It switches only to initialised providers.
- It lists the providers in registry order.
- When sending, it prepends the agent instructions to the first message of a
  conversation. It rewraps every adapter error as "Error sending message to
  <provider>: ...".

**Configuration.** `ConfigManager` keeps per-provider lists of named API
keys and holds them to "at most one default". An environment variable
overrides the configured key. The module also covers the model fall-back
table, the migration of the old one-key-per-provider format, and the
validation and merge of an imported configuration.

**Debugger.** The logging methods are gated by the `enabled` flag and the
`debugLevel`. Headers and objects are redacted before they are logged, and
body previews are truncated.

**Adapters.** Each of `ChatGPTProvider`, `GrokProvider` and
`GeminiProvider` has a two-state initialisation, which needs a non-empty key.
Each builds its request from the conversation history. Each turns a failed
request into its own error message. ChatGPT runs its call under a default
retry governor.

**Command line.** The argv scanner in `index.js` fills an options record
flag by flag, and some flags consume the next argument. `main` then picks
one action by a fixed precedence. The inline-ask path tests whether the
message is a file path, and truncates the echoed preview.

The modules follow the source files:

| file | module | source |
|---|---|---|
| `wrappers.dfy` | `Wrappers` | Option and Result |
| `text.dfy` | `Text` | lower-casing, substring search, truncation |
| `js.dfy` | `Js` | JSON values, JavaScript truthiness, error objects, network replies |
| `chat.dfy` | `Chat` | provider keys, conversation turns, wire messages |
| `retry.dfy` | `Retry` | `src/utils/retry.js` |
| `config.dfy` | `Config` | `src/config/config.js`, the `ConfigManager` |
| `config_document.dfy` | `ConfigDocument` | `src/config/config.js`, migration and import |
| `debugger.dfy` | `Debugging` | `src/debugger.js` |
| `chatgpt.dfy` | `ChatGPT` | `src/providers/chatgpt.js` |
| `grok.dfy` | `Grok` | `src/providers/grok.js` |
| `gemini.dfy` | `Gemini` | `src/providers/gemini.js` |
| `providers.dfy` | `Providers` | `src/providers/providers.js` |
| `cli.dfy` | `Cli` | `index.js` |

Objects whose fields the source assigns are Dafny classes: `RetryManager`,
`ConfigManager`, `Debugger`, the three adapters and `AIProvider`.
Loops in the source are `while` loops proved against a specification
function:
- `executeWithRetry` against `Governed`;
- the argv scan against `Scan`;
- the Gemini `contents` loop against `Contents`;
- `sanitizeObject` against `Sanitized`;
- the registry loops against `Listed` and `AfterInit`.

## Model

| member | source | states |
|---|---|---|
| Retry.ClassifyError | src/utils/retry.js:11-77 | The tests run in source order. First the "Request timeout" message and a missing response, both connection. Then the statuses: 429 quota, 401 auth, 403 by keywords, 400 by keywords, 502-504 and any other status ≥ 500 server, everything else other. |
| Retry.ClassifyByRule | src/utils/retry.js:11-77 | The kind `classifyError` picks is exactly the one whose rule holds, in source order. Connection covers the timeout message, a missing response, and a 403/400 that matches no keyword. Quota is 429 or a 403 mentioning quota, rate limit or billing. Auth is 401 or a 403 mentioning invalid, unauthorized or authentication. Server is a status ≥ 500. Every other case is other. |
| Retry.TimeoutIsConnection | src/utils/retry.js:13-20 | An error whose message is "Request timeout" is a connection error, whatever its status. |
| Retry.Pow2 | src/utils/retry.js:80-82 | The back-off factor is at least 1. |
| Retry.ErrorMessage | src/utils/retry.js:85-111 | Quota, auth and other have fixed texts. Unknown kinds get the fallback text. Connection and server each have a first-attempt notice. On a retry, their text is "Retry a/max - " followed by the kind's retry text. |
| Retry.FinalErrorMessage | src/utils/retry.js:114-134 | The fallback text is returned exactly for unknown kinds. For quota, auth and other the final text equals the per-attempt text. |
| Retry.Delays | src/utils/retry.js:170-179 | The recorded sleeps are the delays announced to `onRetry`, one per retry, in order. |
| Retry.RetryManager.constructor | src/utils/retry.js:4-8 | Stores the given policy. |
| Retry.RetryManager.Default | src/utils/retry.js:4-8 | The default policy is 5 attempts, a 1000 ms base delay and a 30000 ms timeout. |
| Retry.RetryManager.CalculateDelay | src/utils/retry.js:80-82 | For attempt a ≥ 1 the delay is `baseDelay * 2^(a-1)`. |
| Retry.RetryManager.Run | src/utils/retry.js:141-190 | The reference for the loop from attempt a. Past `maxRetries` it reports the kept error. A success returns at once. A fail-fast kind or the last attempt reports that error. Any other failure records a notice with `calculateDelay(a)` and continues at a + 1. |
| Retry.RetryManager.Governed | src/utils/retry.js:137-191 | The whole `executeWithRetry`: the run from attempt 1 with no error kept and kind other. |
| Retry.RetryManager.BackoffDoubles | src/utils/retry.js:80-82 | The first delay is `baseDelay`, and each later delay doubles the one before it. |
| Retry.RetryManager.DefaultBackoff | src/utils/retry.js:4-82 | With base 1000, attempts 1 to 4 wait 1000, 2000, 4000 and 8000. |
| Retry.RetryManager.ExecuteWithRetry | src/utils/retry.js:137-191 | The loop returns the result, invocation count, sleeps and `onRetry` calls of the reference run `Governed`. It makes no `onRetry` calls when no callback is given. |
| Retry.RetryManager.RunBudget | src/utils/retry.js:141-179 | From attempt a, the run makes between 1 and `maxRetries - a + 1` invocations, and one notice fewer than its invocations. |
| Retry.RetryManager.RunRetries | src/utils/retry.js:160-179 | Each notice of a run from attempt a is the notice for its attempt: that attempt failed with a retryable kind, and the notice carries `(attempt, maxRetries, kind, calculateDelay(attempt))`. |
| Retry.RetryManager.RunEnd | src/utils/retry.js:141-190 | The last invocation of a run is the one that decided it. It succeeded, failed fast, or was attempt `maxRetries`. |
| Retry.RetryManager.RunEndStep | src/utils/retry.js:160-179 | The same holds after a retried failure at attempt a. |
| Retry.RetryManager.InvocationCeiling | src/utils/retry.js:141-149 | The operation runs at most `maxRetries` times, at least once when `maxRetries ≥ 1`, and `onRetry` fires at most `maxRetries - 1` times. |
| Retry.RetryManager.RetriesFollowFailures | src/utils/retry.js:160-179 | There is one notice per invocation except the last. Notice j is for the failed, retryable attempt j + 1. |
| Retry.RetryManager.SuccessIsLastInvocation | src/utils/retry.js:141-149 | A success is the reply of the last invocation. Every earlier attempt failed with a retryable kind. |
| Retry.RetryManager.FirstSuccessWins | src/utils/retry.js:141-149 | If attempt n is the first success and no earlier attempt failed fast, the result is that reply after exactly n invocations. |
| Retry.RetryManager.FailureReport | src/utils/retry.js:138-190 | The thrown error always has `attempts = maxRetries` and carries the final message of its kind. Its kind and original error are those of the last invocation, which failed fast or was the last allowed attempt. With `maxRetries ≤ 0` nothing runs and the error is of kind other with no original error. |
| Retry.RetryManager.FailFastOnFirst | src/utils/retry.js:160-166 | A quota, auth or other failure on attempt 1 ends the run after one invocation, with no retry. |
| Retry.RetryManager.ExhaustsBudget | src/utils/retry.js:141-190 | When every attempt fails with a retryable kind, the run makes `maxRetries` invocations and `maxRetries - 1` notices, and reports the last error. |
| Chat.KeyOf | src/providers/providers.js:200-202 | A name is a registered provider exactly when it is openai, gemini or grok. The key found has that name. |
| Chat.WireMessages | src/providers/chatgpt.js:62-68 | The history is mapped in order, 'You' to 'user' and every other role to 'assistant', with contents kept, and the new user turn is appended. The length is the history length plus one. |
| Text.Mask | src/debugger.js:145-163 | A redacted string is at most 13 characters long. |
| Text.Abbreviate | src/debugger.js:106-108 | Within the limit the text is unchanged. Beyond it the result is the prefix plus "...", at most 3 characters over the limit. |
| Config.FirstDefault | src/config/config.js:103 | Finds the first entry marked default, or none exactly when no entry is. |
| Config.FindByName | src/config/config.js:131 | Finds the first entry with the given name, or none exactly when no entry has it. |
| Config.ClearKeepsEntries | src/config/config.js:152-154 | Clearing the defaults keeps every name and key and leaves no default. |
| Config.UnsetDefaults | src/config/config.js:152-154 | The `forEach` loop computes the cleared list. |
| Config.AddAppends | src/config/config.js:108-125 | The entry is appended at the end and names and keys are kept. A new default un-defaults every earlier entry. A non-default leaves the old list untouched. |
| Config.AddKeepsOneDefault | src/config/config.js:108-125 | Adding keeps "at most one default". |
| Config.AddedDefaultIsFound | src/config/config.js:108-125 | After adding a default, the default key is the new entry. |
| Config.RemoveDrops | src/config/config.js:128-145 | Removal drops exactly the chosen entry and keeps the order of the rest. If the removed entry was the default, index 0 becomes default. |
| Config.RemoveKeepsOneDefault | src/config/config.js:128-145 | Removal keeps "at most one default". Removing the default from a longer list leaves entry 0 as the default. |
| Config.SetDefaultIsSole | src/config/config.js:148-162 | Names and keys are kept and at most one entry is default. For a known name, that name's first entry is the default. For an unknown name, no entry is default. |
| Config.NamesDecideFind | src/config/config.js:131-155 | The name lookup depends only on the names, so it finds the same entry before and after the defaults are cleared. |
| Config.GetDefaultModel | src/config/config.js:181-188 | The result is "unknown" exactly for unlisted providers. Gemini's default is gemini-1.5-flash. |
| Config.ConfigManager.constructor | src/config/config.js:40-53 | The default configuration: empty key lists, the default model table, gemini as the default provider, and first run. |
| Config.ConfigManager.GetApiKeysForProvider | src/config/config.js:96-98 | The stored list, or [] when the provider has none. |
| Config.ConfigManager.GetDefaultApiKey | src/config/config.js:101-105 | The key of the first default entry, or null exactly when the list has no default. |
| Config.ConfigManager.ResolvedKey | src/config/config.js:72-93 | A non-empty environment variable wins. Otherwise the configured default key is used. |
| Config.ConfigManager.GetAvailableProviders | src/config/config.js:268-283 | A provider is listed exactly when its resolved key is truthy. |
| Config.ConfigManager.AvailableInOrder | src/config/config.js:268-283 | The list holds only known providers, in the fixed order openai, gemini, grok, without repeats. |
| Config.ConfigManager.HasAnyApiKeys | src/config/config.js:286-289 | True exactly when some provider is available. |
| Config.ConfigManager.GetModel | src/config/config.js:170-172 | A stored non-empty model wins. Otherwise the default model table is used. |
| Config.ConfigManager.GetConfigSummary | src/config/config.js:301-324 | Has one row per provider, with its display name and model. `hasKey` is true exactly when the provider is available. `keyCount` is the list length. |
| Config.ConfigManager.AddApiKey | src/config/config.js:108-125 | Only that provider's list changes, as `WithAdded` describes, and the configuration is saved once. Adding preserves `Valid`. |
| Config.ConfigManager.SetApiKey | src/config/config.js:165-167 | Equals adding a default entry named "Default", after which the default key is the new key. |
| Config.ConfigManager.RemoveApiKey | src/config/config.js:128-145 | Returns true exactly when the list exists and has the name. Then the first match is removed and the configuration saved. Otherwise nothing changes. |
| Config.ConfigManager.SetDefaultApiKey | src/config/config.js:148-162 | Returns true exactly when the name is present. The list becomes `WithDefault` even when it is not. It saves only on success. |
| Config.ConfigManager.SetModel | src/config/config.js:175-178 | `GetModel` then returns the new model, or the default model when the new model is empty. |
| Config.ConfigManager.SetDefaultProvider | src/config/config.js:256-260 | Sets the default provider, clears first run, and leaves the keys and models alone. |
| ConfigDocument.NeedsMigration | src/config/config.js:20 | Migration is triggered exactly when `apiKeys` is a truthy object whose `openai` value is not an array. |
| ConfigDocument.Migrate | src/config/config.js:20-31 | As written: when the test holds, `apiKeys` is replaced by the three legacy lists and the other top-level fields are kept. Otherwise the document is unchanged. |
| ConfigDocument.LoadDocument | src/config/config.js:13-54 | A missing, unreadable or unparsable file, and a parsed null, give the default configuration. Any other document is the result of the migration, so one that needs no migration is returned as it is. The result is never null and never needs migrating. |
| ConfigDocument.LegacyList | src/config/config.js:24-28 | An old truthy key becomes one default entry named "Default". A falsy key becomes []. |
| ConfigDocument.MigrateShape | src/config/config.js:20-31 | Holds for any parsed value. A config in the old format gets per-provider lists and keeps its other fields. Anything that does not need migration, including a non-object, is returned unchanged. The result is an object exactly when the input is. |
| ConfigDocument.MigrateOnce | src/config/config.js:20-31 | A migrated document needs no further migration, so migrating is idempotent. |
| ConfigDocument.MigrationWrapsExistingList | src/config/config.js:20-31 | As written, a list-format config with no openai list is migrated again, and gemini's list is wrapped as if it were a key. |
| ConfigDocument.MigratedList | src/config/config.js:20-31 | An existing list is kept. Any other value becomes its legacy list. |
| ConfigDocument.MigrateKeepingListsCorrect | src/config/config.js:20-31 | The corrected migration keeps every existing list, always produces lists, agrees with the source when no list exists, and needs no second pass. |
| ConfigDocument.FirstMissing | src/config/config.js:376-380 | Names the first falsy required field, or none exactly when all are truthy. |
| ConfigDocument.FirstMalformed | src/config/config.js:382-388 | Names the first provider, in the order given (openai, gemini, grok), whose key list is present but not an array, or none exactly when there is none. |
| ConfigDocument.ImportConfig | src/config/config.js:365-402 | Rejects, in order: an unparsable document, a null document, a falsy or non-object `config`, the first falsy required field, and the first malformed key list. Otherwise the result is the current fields overridden by the imported ones. |
| ConfigDocument.ImportAcceptsIff | src/config/config.js:365-402 | An import succeeds exactly when the parsed document passes every check. The merged configuration is the imported fields over the current ones. |
| ConfigDocument.ImportMessages | src/config/config.js:370-388 | The rejection texts for a non-object config, a missing apiKeys field, and a malformed openai list. |
| Debugging.SensitiveIgnoresCase | src/debugger.js:160 | The sensitivity test lower-cases the name first, so a name and its lower-cased form are judged alike. |
| Debugging.SensitiveByOccurrence | src/debugger.js:160 | A name is sensitive as soon as one of key, token, password, secret or api_key occurs anywhere in its lower-cased form. |
| Debugging.KelvinSignIsSensitive | src/debugger.js:160 | The Kelvin sign lowers to 'k', so "\u212Aey" and "X-API-\u212AEY" are sensitive. |
| Debugging.Redacted | src/debugger.js:160-167 | Keys that are not sensitive keep their value. A sensitive string is masked. Any other sensitive value is hidden. |
| Debugging.Sanitized | src/debugger.js:154-171 | Non-objects are returned as they are. Objects keep their key set, with the sensitive keys redacted and the rest untouched. |
| Debugging.SanitizeObject | src/debugger.js:154-171 | The copy-and-overwrite loop computes `Sanitized`. |
| Debugging.SanitizeHeaders | src/debugger.js:140-151 | Gives {} for null. Otherwise the same headers, with a truthy Authorization hidden and a truthy X-goog-api-key masked. An empty value stays empty, and every other header is unchanged. |
| Debugging.GetBodyPreview | src/debugger.js:102-110 | Gives null exactly for a falsy body. Otherwise it gives the text when it has at most 200 characters, else its first 200 characters plus "...", so never more than 203. |
| Debugging.ExtractErrorInfo | src/debugger.js:113-137 | Gives null exactly for no error. Otherwise it keeps the message. It takes the status and status text from the response and the url and method from the request, each absent when its source is. A truthy `data.error` is reduced to `{error:{code, message, status}}`. |
| Debugging.Debugger.constructor | src/debugger.js:2-5 | Starts disabled at level "info", with nothing logged. |
| Debugging.Debugger.DebugLineFor | src/debugger.js:25-36 | A debug line carries its data sanitized, only when the data is truthy. |
| Debugging.Debugger.Log | src/debugger.js:25-36 | Appends one line when enabled and nothing when disabled. The flags are unchanged. |
| Debugging.Debugger.Enable | src/debugger.js:8-12 | Sets enabled and the level, and logs the level. |
| Debugging.Debugger.Disable | src/debugger.js:14-17 | Clears enabled, keeps the level, and prints the notice. |
| Debugging.Debugger.Verbose | src/debugger.js:39-42 | Logs only when enabled and the level is "verbose". |
| Debugging.Debugger.Error | src/debugger.js:45-57 | Logs the extracted error info only when enabled. |
| Debugging.Debugger.Success | src/debugger.js:60-70 | Logs only when enabled, with the data sanitized when truthy. |
| ChatGPT.ChatGPTProvider.AvailableModels | src/providers/chatgpt.js:39-53 | The default model is one of the listed models. |
| ChatGPT.ChatGPTProvider.constructor | src/providers/chatgpt.js:5-13 | Starts uninitialised, with the configured model or the default, under a default retry governor. |
| ChatGPT.ChatGPTProvider.IsInitialized | src/providers/chatgpt.js:82-84 | True exactly when a client exists. |
| ChatGPT.ChatGPTProvider.Initialize | src/providers/chatgpt.js:16-28 | A falsy key is refused with "OpenAI API key is required" and nothing changes. Otherwise the client exists and the model is refreshed. |
| ChatGPT.ChatGPTProvider.UpdateModel | src/providers/chatgpt.js:31-36 | Sets the model and keeps the client and key. With a configuration, it stores the model under openai with one save, and leaves the keys, the default provider and first run unchanged. |
| ChatGPT.ChatGPTProvider.SendMessage | src/providers/chatgpt.js:56-79 | An uninitialised provider fails before the governor runs. Otherwise the wire messages are sent under the governor. The result, invocation count and `onRetry` calls are the governor's, so there are at most 5 invocations. |
| Grok.RewrapError | src/providers/grok.js:92-98 | A response error becomes "Grok AI API error: " plus the API's message, else the status text. A transport error becomes "Grok AI request error: " plus its message. |
| Grok.GrokProvider.AvailableModels | src/providers/grok.js:44-67 | The default model is one of the listed models. |
| Grok.GrokProvider.constructor | src/providers/grok.js:4-12 | Starts with no client and no key, with the configured model or grok-3. |
| Grok.GrokProvider.IsInitialized | src/providers/grok.js:102-104 | True exactly when a client exists. |
| Grok.GrokProvider.Initialize | src/providers/grok.js:15-33 | A falsy key is refused and nothing changes. Otherwise a client for the xAI URL bearing the key is made and the model refreshed. |
| Grok.GrokProvider.UpdateModel | src/providers/grok.js:36-41 | Sets the model and keeps the client and key. With a configuration, it stores the model under grok with one save, and leaves the keys, the default provider and first run unchanged. |
| Grok.GrokProvider.SendMessage | src/providers/grok.js:70-99 | With no client it fails with "Grok AI provider is not initialized". Otherwise it posts the wire messages and returns the reply or the rewrapped error. |
| Gemini.Contents | src/providers/gemini.js:61-73 | Has one entry per history turn, in order, carrying only its content, then the new message. |
| Gemini.BuildContents | src/providers/gemini.js:61-73 | The push loop computes `Contents`. |
| Gemini.GeminiProvider.AvailableModels | src/providers/gemini.js:36-51 | The default model is one of the listed models. |
| Gemini.GeminiProvider.constructor | src/providers/gemini.js:4-11 | Starts with no key, with the configured model or the default. |
| Gemini.GeminiProvider.IsInitialized | src/providers/gemini.js:109-111 | True exactly when a key is stored. The client plays no part. |
| Gemini.GeminiProvider.GetInfo | src/providers/gemini.js:114-121 | `initialized` equals `isInitialized()`. |
| Gemini.GeminiProvider.Initialize | src/providers/gemini.js:14-25 | A falsy key is refused. Otherwise the key is stored and the model refreshed. The client is never touched. |
| Gemini.GeminiProvider.UpdateModel | src/providers/gemini.js:28-33 | Sets the model and keeps the client and key. With a configuration, it stores the model under gemini with one save, and leaves the keys, the default provider and first run unchanged. |
| Gemini.GeminiProvider.SendMessage | src/providers/gemini.js:54-106 | With no key it fails with "Gemini provider is not initialized". Otherwise it posts the contents to the model's endpoint with the key header. Every failure becomes "Gemini API Error: " plus the message. |
| Providers.AfterInit | src/providers/providers.js:40-50 | A falsy key leaves an adapter as it was. A truthy key makes it ready with that key and the refreshed model. |
| Providers.AfterInitTwice | src/providers/providers.js:40-50 | Initialising twice with the same key is the same as once. |
| Providers.ReinitializedReady | src/providers/providers.js:85-93 | After reinitialising, an adapter is ready exactly when its key is truthy, or when it is Gemini and was ready before. |
| Providers.PrepareMessage | src/providers/providers.js:187-191 | The instructions, a blank line and "User: " go in front of the message only when the history is empty and the instructions are non-empty. |
| Providers.PrepareMessageIff | src/providers/providers.js:182-191 | The instructions are prepended exactly when the history is empty and the instructions are non-empty. Otherwise the message is unchanged. |
| Providers.Rewrap | src/providers/providers.js:194-196 | The rethrown text is "Error sending message to <provider>: <message>", with no other field of the original error. |
| Providers.DefaultModelOf | src/providers/providers.js:165-170 | Each adapter's default model is one of its models. |
| Providers.GetAvailableModels | src/providers/providers.js:157-162 | An unknown provider has no models. A known one has its adapter's list. |
| Providers.GetDefaultModel | src/providers/providers.js:165-170 | Gives null exactly for an unknown provider. Otherwise it gives one of that provider's models. |
| Providers.AIProvider.constructor | src/providers/providers.js:17-32 | The current provider starts as openai, with fresh adapters, none initialised. |
| Providers.AIProvider.Snap | src/providers/providers.js:122-141 | An adapter's snapshot is ready exactly when the adapter is initialised. |
| Providers.AIProvider.IsProviderAvailable | src/providers/providers.js:205-208 | True exactly when the key is registered and that adapter is initialised. |
| Providers.AIProvider.View | src/providers/providers.js:109-115 | Shows the key, display name and model of an adapter. |
| Providers.AIProvider.Listing | src/providers/providers.js:138-144 | `initialized` is `isInitialized()`, and the default model is among the available ones. |
| Providers.AIProvider.GetCurrentProvider | src/providers/providers.js:105-116 | Gives null exactly when the current key is not registered. Otherwise it gives the view of the current adapter. |
| Providers.AIProvider.ListedSplits | src/providers/providers.js:119-131 | Filtering a concatenation is the concatenation of the filters. |
| Providers.AIProvider.ListedExactly | src/providers/providers.js:119-131 | A provider is listed exactly when it is ready, and only ready providers are listed. |
| Providers.AIProvider.SwitchProvider | src/providers/providers.js:96-102 | Returns true exactly when the target is registered and initialised. Only then does the current provider change. |
| Providers.AIProvider.GetAvailableProviders | src/providers/providers.js:119-131 | The push loop gives the initialised providers in registry order. |
| Providers.AIProvider.GetAllProviders | src/providers/providers.js:134-147 | Gives one listing per registered provider, in registry order. |
| Providers.AIProvider.InitializeAdapter | src/providers/providers.js:44-52 | One adapter is initialised as `AfterInit` describes. The others are untouched. |
| Providers.AIProvider.Initialize | src/providers/providers.js:35-55 | Every adapter is initialised from its configured default key. With no configuration nothing changes. |
| Providers.AIProvider.InitializeWithKeys | src/providers/providers.js:58-82 | Each adapter is initialised from its own given key. |
| Providers.AIProvider.ClearClient | src/providers/providers.js:87-89 | Clears one adapter's client. The others are untouched. |
| Providers.AIProvider.Reinitialize | src/providers/providers.js:85-93 | Clears every client and then initialises. Gemini stays ready because its readiness depends on its key. |
| Providers.AIProvider.UpdateModel | src/providers/providers.js:150-154 | Sets the model of the named adapter and stores it with one save. An unknown provider is a no-op: no adapter, model or save changes. The keys, the default provider and first run never change. |
| Providers.AIProvider.SendMessage | src/providers/providers.js:173-197 | Fails with "Provider k is not initialized" before any adapter call. Otherwise it sends the prepared message and the unchanged history to the current adapter, and rewraps any failure with the provider name only. |
| Providers.NamesDiffer | src/providers/providers.js:200-202 | Distinct registry keys have distinct names. |
| Cli.Classify | index.js:202-242 | An argument is positional exactly when it does not start with '-'. It is ignored exactly when it starts with '-' and is not a known flag. |
| Cli.ValueAfter | index.js:208-238 | A value is taken exactly when the next argument exists and does not start with '-'. |
| Cli.Visited | index.js:199-243 | Every visited index lies inside the argument list. |
| Cli.ParseArgs | index.js:199-243 | The loop computes the reference scan `Scan` from empty options. |
| Cli.StepAdvance | index.js:199-243 | The index advances by 2 exactly when a flag consumed a value, and by 1 otherwise. |
| Cli.AskAndOutput | index.js:226-238 | `--ask` with no usable value sets `ask` to true, and with one it takes the message. `--output` with no value changes nothing. |
| Cli.UnknownDashIgnored | index.js:199-243 | An unknown dash argument changes nothing and advances by 1. |
| Cli.ScanExample | index.js:199-243 | `grok --ask hi -o out.txt --debug` parses to provider grok, ask "hi", output out.txt and debug. |
| Cli.StepSwitch | index.js:202-225 | A boolean option is on after a step exactly when it was already on or the argument sets it. |
| Cli.ScanSwitch | index.js:202-225 | A boolean option is on after the scan exactly when some visited argument sets it. |
| Cli.ProviderKept | index.js:239-242 | Once a non-empty provider is taken, later arguments do not change it. |
| Cli.ProviderPositional | index.js:239-242 | The provider is either the initial one or some visited non-dash argument. |
| Cli.ProviderTaken | index.js:239-242 | A visited non-empty non-dash argument guarantees a provider. |
| Cli.ProviderIsFirst | index.js:239-242 | With no provider yet, the first visited non-empty argument that does not start with '-' becomes the provider. Later ones are ignored. |
| Cli.Precedence | index.js:10-105 | Exactly one action runs, by the order version, setup, config, export, import, ask, interactive. The export and import paths each default to the standard file. |
| Cli.RunMain | index.js:8-106 | `main` chooses that action. Unless the version is shown, debug enables verbose debugging and logs the start-up line. |
| Cli.FilePathIff | index.js:148 | A message is a file path exactly when it starts with '/', './', '.\\' or 'C:\\'. |
| Cli.SendingPreview | index.js:162 | The echoed preview is the message when it has at most 100 characters, else its first 100 characters plus "...". |

## Left out

- Network calls are abstract inputs. These are the OpenAI SDK completion, the axios posts of Grok and Gemini, and the request and response logging around them. The ChatGPT call is a function from the attempt number to its outcome. Grok and Gemini each get one reply.
- Timers are left out. The `Promise.race` timeout becomes an outcome whose message is "Request timeout". The back-off sleeps are recorded as a list of delays.
- Console output is left out. The debugger's lines are recorded in a `lines` field without timestamps or colours, and the registry's and adapters' own console messages are dropped.
- File I/O is left out. This covers reading the configuration file, `saveConfig` (counted by `saves`), export and import to files, and the saving step of `importConfig`. JSON parsing arrives as an optional parsed document, and JSON stringifying is a parameter of `GetBodyPreview`.
- `process.env` is a map parameter.
- Provider discovery with `fs.readdirSync` is left out. The registry holds the three known adapters, and the listing order is a constructor parameter.
- `getCurrentAgentInstructions` is not defined in `src/config/config.js`. Its outcome is a parameter of `Providers.AIProvider.SendMessage`, and a failure models the call throwing.
- The catch in the registry's `initialize` is not modelled because it is unreachable: a falsy key is never passed on, so no adapter throws.
- Providers.AIProvider.SendMessage: ChatGPT is called without an `onRetry` callback, as the registry does. The governor's notices are therefore not surfaced.
- `availableProviders[0].key` in `index.js` relies on reading a property of a string, and is left out.
- The rest of `handleInlineRequest` is left out: file reading, printing, the output file and process exit. Plain `--ask` with no message makes it fail on a boolean, which is not modelled.
- The interactive UI, setup wizards, version scripts and the `bin/` wrappers are left out.
- `getProviderNames` and adapter `getInfo` for ChatGPT and Grok are not modelled. The display names appear in `Config.DisplayName` and in the adapters' `name` fields.
- Debugging.Sanitized: arrays are kept as they are. The source's spread would turn an array into an object with index keys.
- Debugging.SanitizeHeaders: header values are strings only.
- Text.Take, Text.Mask and Text.Abbreviate count Unicode scalar values. JavaScript's `.length` and `.substring` count UTF-16 code units. On text outside the Basic Multilingual Plane, such as emoji, the source cuts at a different point and can split a surrogate pair.
- Debugging.GetBodyPreview, Debugging.SanitizeHeaders, Debugging.Redacted and Cli.SendingPreview inherit that difference from the truncation they use.
- Js.ErrorMessageOf reads a truthy non-string `response.data.error.message` as absent.
- Retry.ClassifyError: for a 403 or 400 response with such a message, the source's `toLowerCase()` would throw a TypeError. The model instead classifies it from an empty message.
- Grok.RewrapError: with such a message the model falls back to the status text, where the source interpolates the value itself.
- Text.ToLower maps the ASCII capitals and the Kelvin sign U+212A, the characters whose JavaScript lower case is ASCII. Other capitals are kept. JavaScript lowers them to non-ASCII text, such as U+0130 to 'i' followed by U+0307, which cannot complete any of the lower-case ASCII words the classifier and the debugger search for.
- Keys that collide with JavaScript prototype properties, such as `apiKeys["constructor"]`, are treated as absent.
- Grok.GrokProvider.SendMessage: a response whose error data is null, where the source itself throws a TypeError, is treated like one without an API message.
- Config.ConfigManager: the manager holds a typed configuration that starts from the default. It never installs a document read by `loadConfig` or merged by `importConfig` (config.js:9, config.js:390-394). Two behaviours of the source are therefore not captured. A loaded file without `apiKeys` makes `getApiKeysForProvider`, `getDefaultApiKey` and `addApiKey` throw a TypeError. An imported list may hold entries without a `key`, or with a truthy non-boolean `isDefault`, which `keys.find(k => k.isDefault)` then picks, so `getDefaultApiKey` can return `undefined`. The document side of both is modelled by `ConfigDocument.LoadDocument` and `ConfigDocument.ImportConfig`.
- Config.ConfigManager.HasAnyApiKeys: returns a boolean where the source returns the first truthy key.
- JSON numbers are integers only.

## Findings

| source | as written | input that shows it | evidently intended | confidence | as-written member | corrected member |
|---|---|---|---|---|---|---|
| src/config/config.js:20-31 | Whether a config needs migrating is decided only by `apiKeys.openai` not being an array. All three providers are then rewritten from their old single keys. | `{"apiKeys": {"gemini": [{"name": "work", "key": "k1", "isDefault": true}]}}`, a config in the list format without an openai list, as `importConfig` can store. Gemini's list is wrapped as the key of a new "Default" entry. | Only providers whose value is not already a list are migrated, and existing lists are kept. | not executed | ConfigDocument.MigrationWrapsExistingList | ConfigDocument.MigrateKeepingListsCorrect |

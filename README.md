# Provider identifiers and model-call retry, in Dafny

This project models the core of `core/src/providers/provider.rs` of the Dust
back end, the module that every LLM provider integration goes through:

- **`ProviderID`** — the closed set of seven providers (OpenAI, Cohere, AI21,
  Azure OpenAI, Anthropic, Mistral, Google AI Studio) and its wire-name codec:
  `Display` writes the lower-case name, `FromStr` reads it back and rejects
  everything else (`provider_id.dfy`, module `ProviderIds`).
- **`ModelError`** — the error a provider reports for a failed model call,
  optionally carrying retry options (initial sleep, growth factor, retry
  budget), and its `Display` rendering `[model_error(retryable=…)] message`
  (`model_error.dfy`, module `ModelErrors`).
- **`with_retryable_back_off`** — the loop that calls a fallible operation
  until it succeeds, fails with an error that is not retried, or exhausts the
  retry budget, sleeping with exponential back-off between retries
  (`retry.dfy`, module `RetryBackOff`).

`wrappers.dfy` holds the `Option` and `Result` types.

The operation retried by `with_retryable_back_off` is modelled as a script
`calls: seq<Result<V, AnyError>>`: `calls[k]` is what its (k+1)-th invocation
returns. `AnyError` is `Model(ModelError)` or `AdHoc(text)`, the latter standing
for every error that is not a `ModelError` (including the ones `anyhow!`
builds), so the source's `downcast::<ModelError>()` becomes a test of the
constructor. The method `WithRetryableBackOff` runs the loop over the script
and returns the outcome, the delays slept (a `Duration` is a `nat` of
milliseconds), the number of invocations and the final attempt counter; it is
proved equal to the recursive ghost function `Loop` (via `BackOff`), about
which the lemmas state the back-off schedule, the retry limit and the early
exits. A run that uses up the whole script without stopping reports no
outcome (`out == None`).

## Model

| member | source | states |
|---|---|---|
| `ProviderIds.ToStr` | core/src/providers/provider.rs:37-49 | every provider's displayed name is a non-empty string of lower-case letters, digits and `_` |
| `ProviderIds.Parse` | core/src/providers/provider.rs:51-67 | a successful parse returns the provider whose displayed name is exactly the input; every other input yields a `ParseError` whose message offers the five values listed in the source |
| `ProviderIds.ParseToStr` | core/src/providers/provider.rs:37-67 | round trip: parsing the displayed name of any provider returns that provider |
| `ProviderIds.ToStrInjective` | core/src/providers/provider.rs:39-47 | distinct providers have distinct displayed names |
| `ProviderIds.ParseSucceedsIff` | core/src/providers/provider.rs:54-64 | parsing succeeds if and only if the input is the displayed name of some provider |
| `ProviderIds.ParseRejectsUppercase` | core/src/providers/provider.rs:54-64 | any input containing an upper-case letter is rejected with the source's unknown-provider parse error |
| `ProviderIds.CaseVariantsRejected` | core/src/providers/provider.rs:54-64 | case variants such as "OpenAI", "AI21" and "Azure_OpenAI" are rejected |
| `ProviderIds.Lowercase` | core/src/providers/provider.rs:23 | lower-casing keeps the length, leaves no upper-case letter, changes no other character, and leaves a wire name as it is |
| `ProviderIds.SerdeName` | core/src/providers/provider.rs:22-35 | the serialisation name (lower-cased variant name, or the explicit rename for Azure OpenAI and Google AI Studio) equals the displayed name for every provider |
| `ProviderIds.SerdeNameParses` | core/src/providers/provider.rs:22-67 | the name serde writes for any provider is read back by `FromStr` as that provider |
| `ProviderIds.UnknownProviderMessage` | core/src/providers/provider.rs:62-64 | the rejection message starts with "Unknown provider ID (possible values: " and ends with ")" |
| `ProviderIds.ListedValuesOmitAccepted` | core/src/providers/provider.rs:62-64 | the message `Parse` returns on a rejection (for instance of "foo") offers a list that leaves out "anthropic" and "google_ai_studio", which the parser accepts |
| `ProviderIds.PossibleValuesExact` | core/src/providers/provider.rs:54-64 | the corrected list of possible values holds exactly the strings the parser accepts |
| `ProviderIds.PossibleValuesOffered` | core/src/providers/provider.rs:54-64 | for all strings at once: a string is in the corrected list exactly when the parser accepts it |
| `ProviderIds.ParseCorrected` | core/src/providers/provider.rs:51-67 | parsing with the corrected message: it succeeds on the same inputs as `Parse`, with the same provider, and a rejection offers exactly the accepted names |
| `ModelErrors.Render` | core/src/providers/provider.rs:83-91 | the rendering ends with the error's message, is at least 30 characters longer than it, and its 24th character is `t` exactly when the error carries retry options |
| `ModelErrors.RenderRoundTrip` | core/src/providers/provider.rs:83-91 | the retryable flag and the message can be read back from the rendering |
| `ModelErrors.RenderInjective` | core/src/providers/provider.rs:83-91 | two model errors rendering to the same text agree on retryability and message |
| `RetryBackOff.NextDelay` | core/src/providers/provider.rs:112-115 | the first delay is the error's `sleep`; a later delay is never shorter than the previous one when the factor is at least 1, and is zero when the factor is 0 |
| `RetryBackOff.TooManyRetries` | core/src/providers/provider.rs:126-130 | the limit error's text starts with "Too many retries (" and ends with the rendering of the last model error |
| `RetryBackOff.Terminal` | core/src/providers/provider.rs:133-140 | a success or a non-model error is passed on unchanged; a model error without retry options becomes an error whose text reads back as a non-retryable error with the same message |
| `RetryBackOff.Loop` | core/src/providers/provider.rs:103-143 | a run continued from invocation i has a total invocation count (counted from the start of the run, not from i) between i and the script's length, raises the counter by the number of delays slept, and has no outcome exactly when the script ran out while every remaining call was a retryable failure within budget |
| `RetryBackOff.BackOff` | core/src/providers/provider.rs:103-105 | a whole run starts with no attempts and no delay; it invokes the operation at most as often as the script allows, its counter equals the number of delays, and it has no outcome only when the script is used up |
| `RetryBackOff.WithRetryableBackOff` | core/src/providers/provider.rs:96-144 | the loop's outcome, delays, invocation count and attempt counter are those of the specification `BackOff` |
| `RetryBackOff.LoopSleeps` | core/src/providers/provider.rs:111-117 | from any loop state, each delay follows a retryable failure and is the first `sleep` or the previous delay times that failure's factor |
| `RetryBackOff.SleepSchedule` | core/src/providers/provider.rs:111-117 | the first delay is the first retryable error's `sleep`; each later delay is the previous one times the current error's `factor` |
| `RetryBackOff.GeometricSleeps` | core/src/providers/provider.rs:112-115 | with a constant factor f, the (k+1)-th delay is the first error's `sleep` times f to the power k |
| `RetryBackOff.LoopCountsRetries` | core/src/providers/provider.rs:111 | from any loop state, one delay is slept and the counter rises by one per retryable failure consumed |
| `RetryBackOff.AttemptsCountRetries` | core/src/providers/provider.rs:111 | the final attempt counter equals the number of delays and the number of retryable failures the run consumed |
| `RetryBackOff.LoopRetryLimit` | core/src/providers/provider.rs:111-131 | from a within-budget state, failures all retryable with budget R stop after invocation R+1 with the too-many-retries error |
| `RetryBackOff.RetryLimit` | core/src/providers/provider.rs:111-131 | when every failure is retryable with budget R, the operation is invoked R+1 times, R+1 delays are slept (one after the final failure) and the result is "Too many retries (R): " followed by the last error's rendering |
| `RetryBackOff.LoopStopsAtTerminal` | core/src/providers/provider.rs:133-140 | from a within-budget state, the first result that is not retried ends the loop with that result's terminal value |
| `RetryBackOff.StopsAtFirstTerminal` | core/src/providers/provider.rs:133-140 | the first success or non-retried error, reached within budget, ends the run at once: success returned as is, a model error without retry options as an error carrying its rendering, any other error unchanged |
| `RetryBackOff.FirstSuccess` | core/src/providers/provider.rs:140 | a first call that succeeds is the whole run: one invocation, no delay, the value returned |
| `RetryBackOff.LoopOnlyRetriesBeforeStop` | core/src/providers/provider.rs:105-142 | from a within-budget state, every invocation before the last is a retryable failure within budget, and a success is the last invocation's value |
| `RetryBackOff.OnlyRetriesBeforeStop` | core/src/providers/provider.rs:105-142 | in a run, every invocation before the last is a retryable failure within budget, and a successful outcome is the value the last invocation returned |

## Left out

- `provider()` and the `Provider` trait (core/src/providers/provider.rs:146-167): they only construct or call provider implementations whose source is not part of this model.
- The managed-resource provisioning flow of the wider system (remote workspace, local record, connector): its source is not part of this model.
- Asynchrony: the `Future` returned by the operation, `tokio::time::sleep` and wall-clock time; each sleep is recorded as its delay instead of being waited for.
- The `log_retry` callback and the `tracing::error!` report of the request id: logging side effects only; `ModelError.requestId` is carried but not used.
- `anyhow` downcasting: replaced by the explicit `AnyError` datatype.
- The `clap` derive and its value names; of the `serde` derive only the names are modelled (`SerdeName`).
- Overflow or panic of `Duration * u32` and the `usize` counter: delays, factors and counts are unbounded `nat`, and a `Duration` is a whole number of milliseconds.
- RetryBackOff.WithRetryableBackOff: the operation is a finite script, so a run that would go on after the script ends reports no outcome rather than continuing.

## Findings

| source | as written | input that shows it | evidently intended | confidence | as-written member | corrected member |
|---|---|---|---|---|---|---|
| core/src/providers/provider.rs:62-64 | the unknown-provider message offers "openai, cohere, ai21, azure_openai, mistral" as the possible values | "anthropic" and "google_ai_studio" parse successfully yet are not among the listed values | the message lists all seven accepted names | high; not executed | `ProviderIds.ListedValuesOmitAccepted` | `ProviderIds.PossibleValuesExact` |

`ProviderIds.Parse` returns the message as written; `ProviderIds.ParseCorrected` returns the corrected one, built from `PossibleValues`.

# A verified model of the research platform's hard core

This project models the parts of the platform whose correctness depends on state, interleaving or
exact arithmetic, and proves what they promise for every input, every run or every interleaving.
`dafny verify dfyconfig.toml` checks all of it.

| Component | Files | Form |
|---|---|---|
| Dotenv interpolation and loading | `DotenvMeaning`, `Interpolation`, `ReferenceTexts`, `ReferenceStructure`, `LookupOrder`, `EnvironmentLoading`, `LoadOrder` | a class with a memo table and a cycle breaker, against a plain recursive meaning that is defined without either |
| Token lifecycle | `TokenProtocol`, `TokenInvariants`, `TokenFamilies`, `TokenBoundary`, `TokenRevocation`, `TokenScan`, `TokenScanRace`, `TokenRuns`, `TokenAcceptance`, `TokenService` | calls that interleave at every store access; and the service as a class, each of whose methods is a run of that protocol |
| Tracing singleton | `TracingSingleton`, `TracingCalls` | any number of threads, statement by statement, over one lock and two globals |
| Model generation and the tool loop | `Generation`, `GenerationGuarantees`, `GenerationOutcomes`, `ToolLoop`, `ToolOutcomes` | classes over an adversarial world that fixes what each foreign call answers; each method equals a run function |
| Agent retry and metrics | `AgentMetrics`, `AgentRetry` | the frozen metrics record, and the retry shell as a class |
| Comparison arithmetic | `ScoreMatrix`, `NormalizationLaws`, `Rankings`, `MatrixCompleteness`, `MatrixEnhancement`, `ComparisonPipeline`, `TextSimilarity` | loops proved against column ranges, stable rankings and set overlap, over reals; the in-place rescaling on heap objects |
| Passwords | `PasswordStrength`, `PasswordGenerator`, `PasswordHistory` | window scans, the validator, the generator with every random choice open, the bounded history list |
| Citation export | `CitationExport` | the quoting printer and its exact inverse |

How to read the main results:

- **Interpolation.** `Denote` evaluates references naively, without a table, for a given nesting depth. It
  terminates exactly on the keys from which no cycle can be reached. The memoising environment agrees with
  it on those keys after any history of lookups, even when other keys form cycles and have been cached in
  the middle of one. The proof needs that the keys in progress form a reference path to the current key. A key's
  value is independent of the order of lookups, and of the keys in the files, for every choice of the texts around
  the references, if and only if no cycle through two distinct keys can be reached from it. A key that only refers
  to itself is not affected, because a self-reference always reads as empty. `ReferenceTexts` fixes the values
  without any evaluator: literal text reads as written, and every reference may be replaced by what it stands for.
- **Tokens.** A state is the store (refresh records, blacklist, markers), the clock and the calls in
  progress. An event is a clock tick, a new call, or one store access of one call, which may also fail before
  or after it was applied. A login *family* is a login with the refreshes that descend from it. The theorems
  hold in every reachable state. Marker permanence needs that no two user-wide revocations of the same user
  overlap between reading the clock and storing the marker: `MarkKeepsBoundaryIff` gives the condition for one
  store access, `NeverReopensIff` the one for a whole run, and `OverlappingRevocationsReopen` a run that violates it.
  `TokenAcceptance` is the accepting half: nothing but expiry, a marker and a revocation of that very token refuses it.
- **Generation.** A `World` answers every provider call by the number of calls made before it, so a statement
  over all worlds covers every adaptive behaviour. The trace lists the calls that left the worker.
  `GenerationOutcomes` and `ToolOutcomes` tell values, failures and calls from the providers' answers alone.
- **Comparison.** Python's `sort(reverse=True)` keeps equal scores in their original order. `Ranking` is proved
  to be the only list with that property, so any stable sort may stand behind it. That normalisation, or the whole
  pipeline, keeps a ranking is false in general. The exact conditions read only the scores that go in:
  `MissingStayPut` for normalisation; `TailsDescend` and `MissingStayPutFinally` for the pipeline.

Where code and documentation disagree, the model follows the code:

- Matrix normalisation is documented to map into 0-1; a column whose scores all agree keeps its raw scores, so the
  range holds exactly for columns that vary or lie in it already (`UnitIntervalIff`).
- `execute_with_retry` is documented to retry on timeouts; a timeout is caught inside and becomes a result, so
  only connection errors are retried, and after the third the retry library raises its own error.
- The tracing client's initialisation is documented to be attempted at most once. Each reset allows one more, and
  an initialisation that raises is attempted again: `except Exception` lets an interrupt during the client's
  construction pass.
- The CSV export joins with a backslash and the letter n, not with a line break, so an export is one line.
- A password history limit of 0 keeps every hash, because LTRIM reads the stop -1 as the last element.
- `generate_password` without symbols yields passwords that the same service's validator always rejects.

Unseen libraries are small steps. GETDEL is atomic. SCAN returns batches that may repeat keys and covers every
key that is there throughout. SETEX refuses a lifetime of zero. Tokens are records that only the service can
mint; ids are fresh; a token is accepted only before `exp` (section 4.1.4 of RFC 7519). Quote doubling is the one
of section 2, item 7, of RFC 4180. `IsSpace` lists the characters that Python's `str.strip` removes.

## Model

| member | source | states |
|---|---|---|
| DotenvMeaning.MeaningIffCycleFree | src/core/environment.py:36-57 | plain recursive evaluation terminates on a key if and only if no reference cycle is reachable from it |
| DotenvMeaning.MeaningIsUnique | src/core/environment.py:36-57 | a key has at most one plain meaning, whatever depth it is evaluated with |
| Interpolation.Lookup | src/core/environment.py:36-57 | a lookup terminates on every reference graph and leaves the set of keys in progress as it was |
| Interpolation.InterpolationEnvironment.constructor | src/core/environment.py:26-34 | a new environment has an empty table and nothing in progress |
| Interpolation.InterpolationEnvironment.GetItem | src/core/environment.py:36-57 | the imperative lookup leaves the table and answers exactly as the functional one, joining the atoms left to right |
| Interpolation.InterpolationEnvironment.Resolve | src/core/environment.py:51-53 | one atom; a `KeyError` under a reference becomes its default |
| Interpolation.LookupGrows | src/core/environment.py:36-57 | the table only grows and no entry of it ever changes |
| Interpolation.CycleFreeIsNotInProgress | src/core/environment.py:43-48 | when the keys in progress lie on a reference path to the current one, a cycle-free key is never among them, so the cycle breaker does not touch it |
| Interpolation.LookupAgrees | src/core/environment.py:36-57 | from any sound table, a lookup of a cycle-free key yields its plain meaning and leaves the table sound |
| Interpolation.AfterIsSound | src/core/environment.py:36-57 | after any sequence of lookups every cached cycle-free key holds its plain meaning |
| Interpolation.MemoAgreesWithPlainMeaning | src/core/environment.py:36-57 | whatever was looked up before, the memoised lookup of a cycle-free key returns its plain meaning |
| Interpolation.CyclesDependOnOrder | src/core/environment.py:43-46 | with `A=x${B}` and `B=y${A}`, `A` reads `xy` when it is asked first and `x` after `B` was; `LookupOrder.OrderIndependentIff` says for which keys this can happen |
| ReferenceTexts.ReferenceIsItsText | src/core/environment.py:51-53 | writing the process value of a name, or the default of a name that nothing defines (empty without one), in place of a reference to it changes no reply on any key after any history |
| ReferenceTexts.LiteralTextIsKept | src/core/environment.py:51-53 | a value without references reads as its texts in order, after any history |
| ReferenceTexts.ReferenceIsItsDefinition | src/core/environment.py:36-57 | inlining the atoms of another key in place of a reference to it changes no reply on a cycle-free key, whatever was looked up before in either file |
| ReferenceStructure.LookupIgnoresSelfReferences | src/core/environment.py:43-46 | the environment behaves as if every reference of a key to itself were empty text |
| ReferenceStructure.UntangledHasOneMeaning | src/core/environment.py:36-57 | a key from which no cycle through two distinct keys can be reached has, after every history, the plain meaning it has without self-references |
| LookupOrder.FreshLookupFinishes | src/core/environment.py:36-57 | a first lookup puts exactly the keys reachable from its key into the table |
| LookupOrder.TangledDependsOnOrder | src/core/environment.py:43-46 | for every other key there are texts for the same references and two first lookups after which it reads differently |
| LookupOrder.OrderIndependentIff | src/core/environment.py:36-57 | a key reads the same after every history, for every choice of texts, if and only if no cycle through two distinct keys can be reached from it |
| EnvironmentLoading.MergeFiles | src/core/environment.py:91-98 | the merge loops build the dictionary of both files in first-seen order with last-written values |
| EnvironmentLoading.HomeOverridesProject | src/core/environment.py:91-98 | a key has its home definition, or else its project definition; a bare key overrides nothing |
| EnvironmentLoading.ProcessEnvironment.Load | src/core/environment.py:66-106 | the environment afterwards is the one described by `LoadResult`: unchanged when disabled, otherwise each unset key written in turn |
| EnvironmentLoading.LoadedIsPlain | src/core/environment.py:100-106 | every cycle-free key that was not set is loaded with its plain meaning, wherever it stands in the order |
| EnvironmentLoading.LoadedIsPlainWithoutSelfReferences | src/core/environment.py:100-106 | every unset key from which no cycle through two distinct keys can be reached is loaded with the plain meaning it has without self-references |
| EnvironmentLoading.LoadOrderIsIrrelevant | src/core/environment.py:100-106 | two orders of the same keys load every such key alike |
| LoadOrder.LoadOrderIsIrrelevantIff | src/core/environment.py:100-106 | the value a key is loaded with is the same in every order of the dotenv keys, for every choice of texts, if and only if no cycle through two distinct keys can be reached from it |
| EnvironmentLoading.LoadKeepsProcessValues | src/core/environment.py:86-106 | loading defines exactly the merged keys that were unset and changes no key that was set |
| EnvironmentLoading.LoadsUnlessSwitchedOff | src/core/environment.py:79-106 | loading changes nothing when `CEREBRO_DISABLE_DOTENV` spells 1, true, yes or on in any capitals, and otherwise defines every merged key |
| EnvironmentLoading.MergedAsWritten | src/core/environment.py:91-98 | a key is merged exactly when a line of a file gives it a value; the last such line of the home file decides, or else of the project file |
| EnvironmentLoading.LoadIsIdempotent | src/core/environment.py:66-106 | loading the same files a second time changes nothing, even if the files disable loading |
| TokenInvariants.StepKeepsWellFormed | src/auth/jwt_service.py:238-608 | every store access of every call keeps records, minted pairs and calls consistent, and never rewrites a dropped record |
| TokenFamilies.StepKeepsChained | src/auth/jwt_service.py:320-334 | every event keeps: one carrier per family, which is the newest; one pair per generation; every pair follows its parent |
| TokenFamilies.AtMostOneLiveSession | src/auth/jwt_service.py:467-495 | in every interleaving a login family has at most one refresh record or refresh between GETDEL and SETEX |
| TokenFamilies.AtMostOneSuccessor | src/auth/jwt_service.py:467-495 | a pair has at most one successor |
| TokenFamilies.RotationIsAChain | src/auth/jwt_service.py:467-495 | the pairs of a family are one chain, one pair for each generation |
| TokenFamilies.LiveSessionIsNewest | src/auth/jwt_service.py:320-334 | a refresh record belongs to the newest pair of its family |
| TokenBoundary.BoundaryIsPermanent | src/auth/jwt_service.py:561-571 | a token at or below its user's marker stays so in every continuation with non-overlapping revocations |
| TokenBoundary.NothingBehindBoundaryIsAdmitted | src/auth/jwt_service.py:402-417 | and no later validation or refresh admits it, even if its record was written after the scan passed |
| TokenBoundary.RevokeAllCoversMintedTokens | src/auth/jwt_service.py:561-571 | a revocation past its SET has every token of the user minted before it began behind the marker |
| TokenBoundary.MarkKeepsBoundaryIff | src/auth/jwt_service.py:561-571 | storing a marker keeps all refused tokens refused if and only if it is no older than the one it replaces |
| TokenBoundary.NeverReopensIff | src/auth/jwt_service.py:561-571 | a run never accepts again what was refused before if and only if none of its accesses stores a marker older than the one it replaces |
| TokenBoundary.SerialisedMarksForward | src/auth/jwt_service.py:561-571 | runs without overlapping revocations of one user have that property |
| TokenBoundary.OverlappingRevocationsReopen | src/auth/jwt_service.py:561-571 | there is a run in which two overlapping revocations make a refused token acceptable again |
| TokenRevocation.RevokedIsBlacklisted | src/auth/jwt_service.py:525-533 | after `revoke_token` returned true the token is blacklisted at every time up to one second before `exp` |
| TokenRevocation.RevokedIsRefused | src/auth/jwt_service.py:387-400 | and until then no check that was not already past the blacklist gets past it |
| TokenRevocation.RevokedRecordIsGone | src/auth/jwt_service.py:535-538 | the record of a revoked refresh token is gone and never rewritten |
| TokenRevocation.RevokedNeverRotates | src/auth/jwt_service.py:467-480 | no refresh that was not already past GETDEL rotates a revoked refresh token, at any time |
| TokenScan.RevokeAllEndsSessions | src/auth/jwt_service.py:573-596 | when `revoke_all_user_tokens` returns, every session live when the marker was stored is over for good, and the result is the number of keys it issued a DEL for |
| TokenScanRace.DeletionCanBeCountedInVain | src/auth/jwt_service.py:585-591 | in some interleaving a refresh takes a record between the scan's GET and its DEL, and the DEL is counted although it removes nothing |
| TokenAcceptance.AcceptedIffInForce | src/auth/jwt_service.py:347-439 | in every reachable state, a validation of a handed-out token that no request ever asked to revoke accepts it if and only if it is before `exp` and issued after every marker its user has |
| TokenAcceptance.NeverRefused | src/auth/jwt_service.py:347-439 | whatever other calls do in between, a validation of a token that stays so and that nobody revokes is never refused |
| TokenAcceptance.RecordOutlastsToken | src/auth/jwt_service.py:320-334 | the store never drops the record of an unexpired refresh token by expiry |
| TokenAcceptance.SessionStays | src/auth/jwt_service.py:238-608 | a session that no call is aimed at and no request threatens keeps its record, its markers and its absence from the blacklist in every interleaving |
| TokenAcceptance.LoginRun | src/auth/jwt_service.py:238-345 | an uninterrupted login is a run that mints a first-generation pair and stores its record |
| TokenAcceptance.FreshLoginIsAdmitted | src/auth/jwt_service.py:347-495 | after a login later than its user's last marker, the access token is accepted and the refresh token redeemed at every time before they expire, whatever other calls do, as long as no request revokes or redeems them or revokes all of the user |
| TokenRuns.MintRun | src/auth/jwt_service.py:238-345 | signing and storing a pair without interruption is a run of the protocol, with the stated effect on the store |
| TokenRuns.ValidateRun | src/auth/jwt_service.py:347-439 | an uninterrupted validation is a run that ends accepted exactly for a token that passes all checks |
| TokenRuns.RotateRun | src/auth/jwt_service.py:463-485 | an uninterrupted refresh is a run that drops the record exactly when the token may be rotated |
| TokenRuns.RevokeRun | src/auth/jwt_service.py:507-540 | an uninterrupted revocation is a run with the stated effect on blacklist and records |
| TokenService.JwtService.GenerateTokenPair | src/auth/jwt_service.py:238-345 | returns the signed pair and stores exactly its refresh record |
| TokenService.JwtService.ValidateToken | src/auth/jwt_service.py:347-439 | accepts exactly the unexpired tokens of the expected kind, not blacklisted and not behind the marker, and writes nothing |
| TokenService.JwtService.RefreshTokens | src/auth/jwt_service.py:441-495 | succeeds exactly for a valid refresh token on its device with a live record; replaces that record by the new pair's |
| TokenService.JwtService.RevokeToken | src/auth/jwt_service.py:497-544 | true exactly when a whole second is left; then the token is blacklisted for the rounded-down rest and a refresh record is gone |
| TokenService.JwtService.RevokeAllUserTokens | src/auth/jwt_service.py:546-608 | sets the marker to now, deletes exactly the user's live records and returns how many there were, for any batches SCAN may return |
| TokenService.UseFreshLogin | src/auth/jwt_service.py:238-495 | on any valid service whose clock is past the user's marker, as after `revoke_all_user_tokens` and any wait: log in, wait, then the new access token is accepted exactly until its `exp` and the new refresh token redeemed exactly until its own |
| TokenService.ServiceIsReachable | src/auth/jwt_service.py:238-608 | the object is always in a reachable protocol state, so the theorems about all interleavings hold of it |
| TokenService.RedeemedStaysRedeemed | src/auth/jwt_service.py:467-480 | once its record is gone, a refresh token is refused in every continuation |
| TracingSingleton.StepKeepsInv | src/core/tracing.py:147-174 | every statement of every thread keeps mutual exclusion, what the lock holder knows, and that the globals match the history |
| TracingSingleton.InitialisedOncePerReset | src/core/tracing.py:160-174 | in every interleaving initialisation finishes at most once more than the flag was reset, and no call returns a client that was not made |
| TracingSingleton.RunsOncePerReset | src/core/tracing.py:160-174 | when no initialisation raises, it runs, finished or not, at most once more than the flag was reset |
| TracingSingleton.AttemptedOncePerResetIff | src/core/tracing.py:97-174 | that bound on all runs holds in every interleaving if and only if initialisation cannot raise |
| TracingSingleton.RaisingRunsAgain | src/core/tracing.py:97-164 | without any reset there is an interleaving with one raising and one finished run |
| TracingSingleton.EachResetAllowsOneMore | src/core/tracing.py:160-174 | for every n there is an interleaving with n resets in which n + 1 initialisations finish |
| TracingSingleton.AllCallsShareOneClient | src/core/tracing.py:147-167 | without resets every call that found tracing enabled returns the result of the one initialisation |
| TracingCalls.DisabledTouchesNothing | src/core/tracing.py:155-157 | while tracing is off, no interleaving initialises, answers or sets a global, and no call of `get_langfuse_client` gets near the lock |
| TracingCalls.OnlyGrantedCallsInitialise | src/core/tracing.py:155-167 | a thread reads the flag, waits for the lock of the client or holds it only after its current call has found tracing on |
| TracingCalls.EveryGrantedCallIsSettled | src/core/tracing.py:155-167 | the calls that found tracing on are as many as the answers, the raised initialisations and the calls under way together |
| TracingCalls.AnswersNeedEnabledTracing | src/core/tracing.py:155-167 | answers and raised initialisations are at most as many as the checks that found tracing on |
| TracingSingleton.NeverDeadlocks | src/core/tracing.py:147-174 | while some call is unfinished, some unfinished call can take a step |
| Generation.Worker.SelectGenerationRoute | src/agents/llm_worker_base.py:255-344 | the plan route, the cached flag-driven route or none, with the errors of a malformed policy or an unbuildable router |
| GenerationGuarantees.OnceRoutedAlwaysRouted | src/agents/llm_worker_base.py:294-344 | once one task without a plan was routed, every later one is, whatever runs in between and whatever can be built by then |
| GenerationGuarantees.PlanNeverReachesGemini | src/agents/llm_worker_base.py:331-677 | whatever its policy says and whatever can be built, no plan-backed task calls or builds Gemini, for structured output or text |
| GenerationGuarantees.PlanSeriesNeverReachesGemini | src/agents/llm_worker_base.py:346-413 | nor does any series of them |
| Generation.Worker.GenerateStructured | src/agents/llm_worker_base.py:440-683 | the routed generation with its truncation retry and Gemini fallback equals the run function: value or error, fields and trace |
| Generation.Worker.GenerateWithGemini | src/agents/llm_worker_base.py:415-438 | Gemini text with its confidence, or the canned text when no model can be built |
| GenerationGuarantees.TextIsEarned | src/agents/llm_worker_base.py:346-438 | the text and confidence of a generation are the router's or Gemini's answer to the last call, or the canned text without a call to Gemini |
| GenerationOutcomes.RoutedTextOutcome | src/agents/llm_worker_base.py:346-413 | without a plan, text is the router's whenever it answers; a plan error ends the generation, and anything else goes to Gemini if there is one or one can be built |
| Generation.Worker.GenerateWithRouting | src/agents/llm_worker_base.py:346-413 | plain text generation equals its run function |
| GenerationGuarantees.PlanIsNeverSubstituted | src/agents/llm_worker_base.py:485-677 | on a well-formed plan policy with a constructed router: no Gemini call, at most two router calls on the plan's provider, and only a schema-valid value or the plan error |
| GenerationGuarantees.TruncationFlagIsExact | src/agents/llm_worker_base.py:537-649 | after a normal return the flag is set if and only if the value is the first attempt's schema-valid parse with finish reason "length" |
| GenerationGuarantees.TruncatedIsReplacedIffRetryRaised | src/agents/llm_worker_base.py:604-677 | on the flag-driven route a truncated but valid first attempt is given up for Gemini, or for having no model, exactly when the retry raised, and for the plan error exactly when the retry raised that |
| GenerationGuarantees.TruncatedPlanFailsIffRetryRaised | src/agents/llm_worker_base.py:604-668 | on a plan route it is given up, for the plan error, exactly when the retry was made and raised |
| GenerationGuarantees.RetryIsAContinuation | src/agents/llm_worker_base.py:568-602 | when there is a second router call, on which provider, model and tier, and that a positive budget grows and stays within 8000 |
| GenerationOutcomes.FirstCall | src/agents/llm_worker_base.py:255-344 | the router is called first exactly on a usable plan, or without a plan when the flag, the key and the router are there; with the plan's or the default model, the caller's budget, and the caller's tier or the one the task's complexity gives |
| GenerationOutcomes.ValueIsAnswered | src/agents/llm_worker_base.py:537-683 | a returned value is the validated content of the router's last answer, or Gemini's answer when the last call went there; with the truncation flag, of the router's first answer |
| GenerationOutcomes.RouterValueIffUsable | src/agents/llm_worker_base.py:537-677 | a routed generation returns a router value if and only if its answers contain one to use; it ends in the plan error if and only if that was raised or, under a plan, they contain none |
| GenerationOutcomes.GeminiOutcome | src/agents/llm_worker_base.py:670-683 | a call to Gemini is the last, its answer is the outcome, and a missing model is reported only when none is there and none can be built |
| ToolLoop.ParserInvertsEnvelope | src/agents/llm_worker_base.py:57-87 | the parser accepts exactly the envelopes of calls with a normalised name and reads the call back; what is ordinary text |
| ToolLoop.ToolWorker.Execute | src/agents/llm_worker_base.py:907-984 | the loop equals its run function; a blank query calls nothing |
| ToolLoop.ToolWorker.ExecuteModelToolCall | src/agents/llm_worker_base.py:794-905 | one registry call, a second turn only after its success, and the failure of each way out |
| ToolLoop.LoopIsBounded | src/agents/llm_worker_base.py:942-984 | every run makes at most two model turns and one registry call between them |
| ToolLoop.PlanExecutionStaysOnPlan | src/agents/llm_worker_base.py:907-984 | a whole execution under a plan calls nothing but the plan's provider and model, at most twice, and never builds Gemini |
| ToolLoop.SuccessIsAnAnswer | src/agents/llm_worker_base.py:794-905 | a success is never a tool-call envelope, and a tool result in it was a success of the call the model asked for |
| ToolLoop.FailureReportsItsCall | src/agents/llm_worker_base.py:740-771 | a failure reports a tool call if and only if one was made, as a success only when the second turn failed |
| ToolOutcomes.SucceedsIff | src/agents/llm_worker_base.py:942-982 | a run succeeds with a content and a confidence if and only if its last turn answers them, the content reads as ordinary text, and a tool call in between succeeded |
| ToolOutcomes.FailsIff | src/agents/llm_worker_base.py:794-982 | each error code occurs if and only if its cause does in the turns, the tool's reply and the readings; an exception leaves exactly when the first turn raises |
| ToolOutcomes.ResultReportsItsTool | src/agents/llm_worker_base.py:740-905 | every result reports exactly the tool call made and what it answered; the steps are the first turn, that call, and a second turn after its success |
| AgentMetrics.AveragesAreTrueMeans | src/agents/models.py:131-158 | over any history the stored averages are the true means and the counters count the outcomes |
| AgentMetrics.OutcomesNeverExceedTotal | src/agents/models.py:131-158 | the outcome counts never exceed the total, and reach it exactly when every status is one of the three |
| AgentMetrics.SuccessRateIsAFraction | src/agents/models.py:125-129 | the success rate lies in [0, 1] and is 1 exactly for a nonempty history of successes |
| AgentRetry.Agent.ExecuteOnce | src/agents/base.py:226-289 | one attempt: what it records, what it re-raises, and that the agent is idle again |
| AgentRetry.Agent.ExecuteWithRetry | src/agents/base.py:226-289 | one to three attempts, every non-final one a connection failure; how the call ends; metrics of exactly the attempts made; idle |
| AgentRetry.OneRecordPerAttempt | src/agents/base.py:226-289 | as many records as attempts if and only if no attempt was cancelled, and never more |
| AgentRetry.CallsAccumulate | src/agents/base.py:226-289 | consecutive calls leave the metrics of all their attempts together |
| AgentRetry.MetricsAreOfTheRecords | src/agents/base.py:226-289 | the metrics after any attempts are those of the recorded results, one update for each |
| AgentRetry.AttemptsAreCounted | src/agents/base.py:240-285 | any series of attempts moves the counters by the attempts that succeeded, failed and timed out, an invalid result counting as a failure |
| AgentRetry.AttemptsAreAveraged | src/agents/base.py:240-285 | the averages account for the time and confidence of every attempt: an invalid result for the time it took, a timeout for the limit, and neither for any confidence |
| AgentRetry.EndingIsOfLastAttempt | src/agents/base.py:226-289 | the retry library gives up exactly after a connection failure, other exceptions leave as they are, and an invalid result or a timeout is returned as a result |
| ScoreMatrix.CollectRanges | src/agents/comparative_matrix_builder.py:17-29 | the first pass finds the range of every scored criterion and no other |
| ScoreMatrix.BoundsAreTight | src/agents/comparative_matrix_builder.py:17-29 | a range exists exactly for scored criteria, encloses their scores and is attained at both ends |
| ScoreMatrix.Normalize | src/agents/comparative_matrix_builder.py:9-45 | both passes yield the normalised matrix, rows and criteria in order; the empty matrix included |
| NormalizationLaws.RescaledKeepsOrder | src/agents/comparative_matrix_builder.py:35-43 | rescaling by one range keeps and reflects the order of scores |
| NormalizationLaws.VaryingColumnsFillTheUnitInterval | src/agents/comparative_matrix_builder.py:31-45 | a column with two distinct scores is mapped into [0, 1] with both ends attained |
| NormalizationLaws.ConstantColumnsAreKept | src/agents/comparative_matrix_builder.py:42-43 | a constant column keeps its scores |
| NormalizationLaws.UnitIntervalIff | src/agents/comparative_matrix_builder.py:9-45 | all normalised scores for a criterion lie in [0, 1] if and only if its scores differ or lie there already |
| NormalizationLaws.ConstantColumnLeavesUnitInterval | src/agents/comparative_matrix_builder.py:42-43 | a column that fails that condition: a single score of 5 |
| NormalizationLaws.NormalizationIsIdempotent | src/agents/comparative_matrix_builder.py:9-45 | normalising twice is normalising once |
| Rankings.Ranking | src/agents/comparative_matrix_builder.py:60-65 | every row position once, descending by score, ties in row order |
| Rankings.RankingIsUnique | src/agents/comparative_matrix_builder.py:60-65 | a stable descending sort has only that outcome |
| Rankings.CalculateRankings | src/agents/comparative_matrix_builder.py:47-77 | the rankings dict: one for each criterion, and "overall" by mean score, which replaces a criterion of that name |
| Rankings.MeanIsWithin | src/agents/comparative_matrix_builder.py:67-71 | the mean score of an item lies between its least and its greatest score |
| Rankings.MeanMoves | src/agents/comparative_matrix_builder.py:67-71 | raising any score by d raises the mean by d divided by the number of scores |
| Rankings.MissingScoreRanksAsZero | src/agents/comparative_matrix_builder.py:60-65 | giving an unscored item a score of zero changes no ranking by that criterion |
| Rankings.RankingsArePermutations | src/agents/comparative_matrix_builder.py:60-65 | each ranking names every item exactly once |
| Rankings.RankingsAreSorted | src/agents/comparative_matrix_builder.py:60-65 | a higher score, or an equal one earlier in the matrix, stands earlier in the ranking |
| Rankings.RankingsAgreeIff | src/agents/comparative_matrix_builder.py:60-65 | two score lists have the same ranking if and only if they put every pair of positions in the same order |
| Rankings.NormalizationKeepsRankingIff | src/agents/comparative_matrix_builder.py:9-77 | normalisation leaves the ranking for a criterion as it was if and only if each scored row stands to zero as it stands to the smallest score, against every row without one |
| Rankings.NormalizationKeepsRankings | src/agents/comparative_matrix_builder.py:9-77 | so on a complete matrix it leaves every per-criterion ranking identical, ties included |
| Rankings.MissingScoresCanMoveItems | src/agents/comparative_matrix_builder.py:60-65 | a matrix that fails that condition: three items, one without a score, in reverse order before and not after |
| MatrixCompleteness.AssessCompleteness | src/agents/comparative_matrix_builder.py:79-99 | the mean share of all scored criteria, zero for no rows or no criteria |
| MatrixCompleteness.CompletenessIsExact | src/agents/comparative_matrix_builder.py:79-99 | it lies in [0, 1] and is 1 exactly for a matrix with scores and none missing |
| MatrixCompleteness.EachScoreCountsAlike | src/agents/comparative_matrix_builder.py:79-99 | filling in any missing score raises it by the same amount, one cell of the table of items and scored criteria |
| MatrixCompleteness.FullAssessmentKeepsRankings | src/agents/comparative_matrix_builder.py:79-99 | an assessment of 1 guarantees that normalisation changes no per-criterion ranking |
| MatrixEnhancement.ScoreDict.Enhance | src/agents/comparative_matrix_builder.py:127-139 | the inner loop overwrites every score of a dict once, in place |
| MatrixEnhancement.Enhance | src/agents/comparative_matrix_builder.py:117-141 | the result shares the caller's dicts, so they show the new scores; a dict shared by several items is rescaled once for each |
| MatrixEnhancement.EnhancedEnds | src/agents/comparative_matrix_builder.py:131-139 | the mean becomes 0.5, and 2.5 deviations above and below it become 1 and 0, with 1.0 and 0.5 for a deviation or mean the analysis lacks |
| MatrixEnhancement.EnhancedMiddle | src/agents/comparative_matrix_builder.py:135-139 | strictly between the ends the middle of two scores becomes the middle of theirs |
| MatrixEnhancement.NothingToEnhance | src/agents/comparative_matrix_builder.py:123-134 | without a successful analysis with statistics of positive spread every score stays |
| ComparisonPipeline.Compare | src/agents/comparative_analysis_agent.py:135-147 | enhance, normalise, rank; the caller's matrix is left enhanced, once for each item that holds a score dict, so once when none is shared |
| ComparisonPipeline.EnhancedOrder | src/agents/comparative_matrix_builder.py:128-139 | rescaling keeps the order of two scores and equates distinct ones exactly when both are 2.5 deviations or more on one side of the mean |
| ComparisonPipeline.PipelineKeepsOrder | src/agents/comparative_analysis_agent.py:135-147 | final scores are ordered as raw scores are, except that scores in one clamped tail come out equal |
| ComparisonPipeline.PipelineKeepsRankingIff | src/agents/comparative_analysis_agent.py:135-147 | the final ranking for a criterion is the ranking by raw scores if and only if scores in one clamped tail already stand in descending order and rows without a score keep their place |
| ComparisonPipeline.PipelineKeepsCompleteRankingIff | src/agents/comparative_analysis_agent.py:135-147 | on a complete column the tails alone decide |
| ComparisonPipeline.CrowdedTailCanReorder | src/agents/comparative_matrix_builder.py:136-139 | a column that fails that condition: two items clamped to 1, the better one second |
| TextSimilarity.DistanceIsTheUnsharedPart | src/agents/comparative_similarity_analyzer.py:82-91 | one minus similarity is the share of words that only one text has, the empty branches included |
| TextSimilarity.DistanceSeparates | src/agents/comparative_similarity_analyzer.py:82-91 | it is symmetric, in [0, 1], and zero exactly for equal word sets |
| TextSimilarity.TriangleInequality | src/agents/comparative_similarity_analyzer.py:82-91 | the triangle inequality, for all sets |
| TextSimilarity.TextDistance | src/agents/comparative_similarity_analyzer.py:82-91 | the same on texts, for any way of splitting them into words |
| PasswordStrength.HasSequentialChars | src/auth/password_service.py:533-550 | true exactly when some window ascends or descends by one code point at every place |
| PasswordStrength.HasRepeatingChars | src/auth/password_service.py:552-557 | true exactly when some nonempty window has all characters equal |
| PasswordStrength.OneDistinct | src/auth/password_service.py:555-556 | a window has one distinct character exactly when it is nonempty and constant |
| PasswordStrength.CalculateEntropy | src/auth/password_service.py:559-577 | low exactly for an empty character set or fewer than 2^40 passwords of that length over it |
| PasswordStrength.ValidatePasswordStrength | src/auth/password_service.py:121-224 | lists exactly the issues that are raised, in order, and the score pays for each |
| PasswordStrength.VerdictIsUnique | src/auth/password_service.py:121-224 | that determines validity, issues, score and label |
| PasswordStrength.ValidVerdicts | src/auth/password_service.py:218-224 | valid means that no issue is raised; then the score is 90 below 16 characters and 100 otherwise, and the label "strong" |
| PasswordStrength.ScoreIsDeducted | src/auth/password_service.py:140-224 | the score of every verdict is 100, or 90 for long enough passwords under 16 characters, less 30, 20, 15 or 10 for each issue listed, not below zero; the label changes at 80, 60, 40 and 20 |
| PasswordStrength.LocalPartEndsAtSign | src/auth/password_service.py:196-200 | the similarity check looks for the part of the address before its first "@" |
| PasswordGenerator.GeneratePassword | src/auth/password_service.py:481-531 | for every choice and shuffle: the length, the alphabet without ambiguous characters, and one character of each class |
| PasswordGenerator.GeneratedPasswordsPass | src/auth/password_service.py:481-531 | with symbols and at least the minimum length no length or class issue is raised, and the entropy issue exactly below seven characters |
| PasswordGenerator.GeneratedVerdict | src/auth/password_service.py:121-224 | from seven characters on, such a password is valid exactly when no pattern, similarity, sequence or repetition issue is raised |
| PasswordGenerator.GeneratedWithoutSymbolsIsRejected | src/auth/password_service.py:502-502 | without symbols the validator rejects every generated password |
| PasswordHistory.PasswordService.AddToPasswordHistory | src/auth/password_service.py:278-301 | without a store an error and no change; otherwise the list is that of all hashes added since it last expired, it is kept for another year, and other users' lists are untouched |
| PasswordHistory.PasswordService.Wait | src/auth/password_service.py:300-301 | as time passes a list is gone exactly when nothing was added to it for a year |
| PasswordHistory.PasswordService.CheckPasswordHistory | src/auth/password_service.py:303-332 | true exactly when the password verifies against a stored hash, for a limit of at least 1 one of the newest `limit` |
| PasswordHistory.StoredIsNewest | src/auth/password_service.py:295-298 | for a limit of at least 1 the list has the newest `limit` hashes, or all of them, each at its place counted from the newest |
| PasswordHistory.InterleavedIsNewest | src/auth/password_service.py:294-298 | however the LPUSH and LTRIM of several additions interleave, the list is the newest hashes in the order of their LPUSH, longer than the limit only by those pushed since the last LTRIM |
| PasswordHistory.FinishedAdditionsKeepNewest | src/auth/password_service.py:294-298 | when all those additions are done it is exactly the newest `limit` |
| PasswordHistory.SequentialAdditions | src/auth/password_service.py:294-298 | additions one after the other leave the list that the service keeps |
| PasswordHistory.HistoryIsBoundedIff | src/auth/password_service.py:298-298 | the list is the newest `limit` hashes for every history (none for a negative limit) if and only if the limit is not 0 |
| CitationExport.ExportToCsv | src/agents/citation_agent.py:598-612 | the export is the header and every quoted text behind the two-character separator |
| CitationExport.ExportRoundTrip | src/agents/citation_agent.py:598-612 | a decoder recovers every list of citation texts from its export, whatever quotes or separators they contain |
| CitationExport.ExportShowsCitations | src/agents/citation_agent.py:598-612 | what is recovered of a citation is its "citation" entry when it is a dict with one, else its string form |
| CitationExport.DecoderIsExact | src/agents/citation_agent.py:598-612 | the decoder accepts nothing but exports |
| CitationExport.ExportIsOneLine | src/agents/citation_agent.py:612-612 | an export has a line break if and only if some citation text has |

## Left out

- TokenScan.RevokeAllEndsSessions: does not promise that the call itself removed every record it counts, because the code counts a DEL also when another call took the record after its GET (`TokenScanRace.DeletionCanBeCountedInVain`).
- PasswordHistory.PasswordService.AddToPasswordHistory: the class makes the three accesses of an addition as one; LPUSH and LTRIM of interleaved additions are covered by `InterleavedIsNewest`, an EXPIRE that interleaves with the passing of a year is not.
- TokenBoundary.NothingBehindBoundaryIsAdmitted: speaks of calls admitted after the marker was stored; a session refreshed while a user-wide revocation runs can leave a descendant with a later issue time.
- TokenBoundary.BoundaryIsPermanent: requires revocations of one user not to overlap between clock and SET; without that it is false (`OverlappingRevocationsReopen`).
- TokenRevocation.RevokedIsBlacklisted: the last second before `exp` is not covered, because the lifetime is rounded down.
- TokenService.JwtService.RevokeAllUserTokens: the class runs each call alone and with a store that answers; interleaving and failing accesses are in the protocol.
- AgentRetry.Agent.ExecuteWithRetry: waiting times between attempts and the message queue are not modelled; the status texts are constructors.
- Token signing, key loading, claims beyond kind, id, user, device and times, additional claims, and a service without a Redis client.
- Foreign tokens, and records whose stored JSON does not decode: signatures only verify on what the service minted, and records are well-formed.
- Session listing and clean-up of expired tokens: they read or drop what the store drops by itself.
- Dotenv file reading and the splitting of values into atoms: the model starts from atoms, and lower-casing of the disabling word is ASCII.
- Prompts, logging, procedural memory, pre-computation and provider internals: they are outcomes of the modelled world.
- JSON and schema decoding: decoded values are the input of the envelope parser and an outcome of generation.
- Langfuse I/O other than creating and resetting the client.
- Rounding of floating-point numbers: scores, averages and shares are reals, and the entropy comparison is made on integers.
- Matrix similarity, statistical rankings, the confidence functions and the radar chart data.
- Hashing, breach lookups, reset and verification tokens.
- The order of criteria inside a row does not matter over reals; it is kept but no theorem is about it.
- The other citation exports and formats.

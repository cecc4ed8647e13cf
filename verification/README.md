# Bulwarkai, verified

Bulwarkai is a proxy between LLM clients and Vertex AI. It screens prompts and responses, translates between the
Anthropic, OpenAI and Gemini formats, streams answers as server-sent events, limits request rates, guards Vertex AI
with a circuit breaker, reloads its policy while running and reports blocked requests to a webhook. This project models
those parts in Dafny and proves what they guarantee on every input, every history and every interleaving.

| file | component | main results |
|---|---|---|
| `Framing.dfy`, `Streaming.dfy`, `StreamTheorems.dfy`, `StreamContents.dfy`, `Cutting.dfy`, `EventStream.dfy` | `internal/streaming` | framing and rendering round trips, exactly where a read may end inside a line, event protocols, lockstep of the two translators in texts and finish reasons, strict against live output |
| `RateLimit.dfy` | `internal/ratelimit` | refinement of a history-only specification, the sliding-interval bound on the answers given and its tightness, invisibility of cleanup and of other keys |
| `CircuitBreaker.dfy`, `VertexClient.dfy` | `internal/circuitbreaker`, `internal/vertex` | admission and every change of mode decided by the history alone, recovery, when probes are single, when the breaker is the documented one, what each call outcome does to the breaker |
| `Webhook.dfy` | `internal/webhook` | conservation and order, backoff budget, completeness of shutdown, its termination among finitely many notifications and only then, exactly which events it loses |
| `FanOut.dfy` | `internal/inspector` | no panic, no deadlock and termination of every interleaving; the result of the chain |
| `Policy.dfy` | `internal/policy` | the watcher refines one that reloads at every tick; exactly when it misses an edit; stopping it |
| `Translate.dfy`, `Handler.dfy`, `Conversation.dfy`, `Answers.dfy`, `Screening.dfy` | `internal/translate`, `internal/handler` | what a body says, what of it is screened and what forwarded, exactly when every text forwarded is part of the screened prompt; how every request is answered and what is logged and reported, case by case; response screening per mode; when the policy forbids and when the inspectors let pass |

`Strings.dfy`, `Json.dfy`, `Sequences.dfy` and `Sets.dfy` hold the vocabulary: Go's string helpers, decoded JSON trees,
collecting loops, set sizes. `dafny verify dfyconfig.toml` checks everything.

## How the source is modelled

- Objects that Go updates in place are classes (`Limiter`, `Breaker`, `Notifier`, `FileEngine`) whose `Valid()` or
  `Current()` ties the fields to a specification over the history of calls; the lemmas are about that specification.
- Loops are methods with loops, proved equal to specification functions. Pure Go code is functions.
- Goroutines and channels are state machines: an action is one atomic step, a run is any sequence of enabled actions.
- Time is an integer that never goes back, read under the component's lock. JSON decoding and encoding, the policy
  compiler, authentication, the inspectors and Vertex AI are parameters, so results hold for every behaviour of theirs.

## Where the code and its documentation part

- `docs/design.md:178`, `docs/configuration.md:105` and `docs/adr/013-circuit-breaker.md:15` speak of consecutive
  failures. The code never resets the count on a success while closed: `FailuresNotConsecutive` is a run where it
  matters, for every threshold above one, and `DocumentedExactly` says in which runs the breaker is the documented one.
  `docs/design.md:178` also counts every non-200 response; only statuses from 500 up, and 0, are recorded
  (`ClientErrorInvisible`).
- `docs/design.md:180` and `docs/adr/013-circuit-breaker.md:17` promise a single half-open probe. `TwoProbes` is a run
  with two, for every threshold and timeout; `SingleProbeExactly` says when there is just one.
- `docs/adr/011-rate-limiting.md:21` gives twice the limit as worst case; the exact worst case is one less
  (`AdmissionsBounded`, `SlidingBoundTight`).
- `docs/adr/012-webhook-notifications.md:19` says no retries, the code makes up to three. Line 21 promises that queued
  events are sent before the process exits, but `main.go:130-135` stops the notifier before the HTTP server, so requests
  still in flight may notify afterwards. `LateEventLost` is a run that loses such an event; `AcceptedLateIsLost` says
  that all accepted events are sent exactly when none is notified after the worker's exit, and which stay unsent. And
  as the worker prefers a nonempty queue, notifications that keep coming keep `Stop` waiting: `StopMayWait` and
  `DrainGoesOn` give such runs of any length, `WorkBounded` a bound for finitely many notifications.
- `README.md:62` of the repository says every request meets the same inspectors. The Anthropic top-level `system` text
  is forwarded without being part of the screened prompt, and on both endpoints so are the stop sequences:
  `SystemUnscreened` and `StopUnscreened` give requests where nothing of them is screened, `AnthropicCoverage` and
  `OpenAICoverage` say exactly when everything forwarded is.
- `docs/design.md:170` and `docs/configuration.md:81` say every block event is sent to the webhook. A response blocked by
  the model's own filter is logged under an action that starts with neither BLOCK nor DENY, and so is not
  (`ModelBlockUnreported`).
- `docs/configuration.md:138`, `docs/design.md:281` and `docs/inspectors.md:15` say the inspector chain stops at the
  first block. It runs every inspector (`FanOutResult`).
- A line that spans two reads is not rejoined (`internal/streaming/streaming.go:89-97`): `CutLineLost` is a line lost by
  it, and `FramedCutExact` says where in a framed line a read may end.
- Policy edits are noticed by modification time only (`internal/policy/engine.go:209`): `EditMissed` is a run where a
  good edit is never seen, `MissedExactly` says when the watcher falls behind.

## Model

| member | source | states |
|---|---|---|
| Strings.SplitSound | internal/streaming/streaming.go:94 | splitting at newlines yields newline-free pieces whose join is the input, which determines them |
| Strings.SplitJoin | internal/streaming/streaming.go:94 | splitting a join of newline-free lines gives the lines back |
| Strings.TrimPadded | internal/streaming/streaming.go:221 | trimming removes exactly the surrounding white space |
| Strings.WhiteSpace | internal/streaming/streaming.go:221 | blanks, tabs and line ends are white space, printing ASCII characters are not |
| Framing.ShownPayloads | internal/streaming/streaming.go:220-241 | lines showing objects behind any of the three prefixes, before any separator, with any padding and any punctuation-only lines between, hand exactly those objects to the JSON decoder, in order |
| Framing.FramingRoundTrip | internal/streaming/streaming.go:94-95 | printing objects as an array on one object per line, as an array with separators on their own lines, newline-delimited or as data lines, then splitting and stripping, is the identity |
| Streaming.StreamGeminiAsAnthropic | internal/streaming/streaming.go:80-154 | the read loop writes the Anthropic rendering of the transcript of its input and returns the concatenated text |
| Streaming.AnthropicLine | internal/streaming/streaming.go:94-143 | one line takes started, totalTokens, accumulated and the events written from one transcript prefix to the next |
| Streaming.AnthropicExtend | internal/streaming/streaming.go:100-142 | appending one chunk's events to those of a transcript gives the events of the extended transcript |
| Streaming.StreamGeminiAsOpenAI | internal/streaming/streaming.go:156-218 | the read loop writes the OpenAI rendering of the same transcript and returns the same text |
| Streaming.OpenAILine | internal/streaming/streaming.go:170-207 | one line takes roleSent, accumulated and the events written from one transcript prefix to the next |
| Streaming.OpenAIExtend | internal/streaming/streaming.go:176-206 | appending one chunk's events to those of a transcript gives the events of the extended transcript |
| Streaming.WriteAnthropicSSE | internal/streaming/streaming.go:20-55 | a whole message is written as start, three events per content block in order, delta and stop |
| StreamTheorems.AlignedPayloads | internal/streaming/streaming.go:89-97 | when every read but the last is empty or ends at a newline, the payloads seen are those of the concatenation |
| StreamTheorems.RegroupingInvisible | internal/streaming/streaming.go:165-173 | two aligned groupings of the same bytes give the same transcript, hence the same events and text from both translators |
| StreamTheorems.CutExact | internal/streaming/streaming.go:91-95 | a read ending inside any line is harmless for every decoder if and only if the two halves hand over the same payloads as the whole line |
| Cutting.CutPosition | internal/streaming/streaming.go:220-241 | the halves of a framed line hand over exactly its object if and only if the cut lies neither strictly inside a data: prefix nor strictly inside the object |
| Cutting.FramedCutExact | internal/streaming/streaming.go:89-97 | with whole lines around, a read ending in a framed line changes no transcript of any decoder if and only if it ends neither inside a data: prefix nor inside the object |
| StreamTheorems.HalvesLost | internal/streaming/streaming.go:91-95 | a line whose halves both hand something over is not recovered |
| StreamTheorems.CutLineLost | internal/streaming/streaming.go:91-95 | a concrete line that is lost when a read ends inside it |
| StreamTheorems.FramingInvisible | internal/streaming/streaming.go:89-97 | whatever the framing and however it is cut into aligned reads, the translators see exactly the decoded objects in order |
| StreamTheorems.AnthropicDelivers | internal/streaming/streaming.go:117-141 | the text deltas written are the transcript's pieces in order, with one message stop per finished message |
| StreamTheorems.OpenAIDelivers | internal/streaming/streaming.go:184-206 | the contents written are the transcript's pieces in order, with one [DONE] per finished message |
| StreamTheorems.Lockstep | internal/streaming/streaming.go:117-141 | on any input both translators write the same pieces, complete the same number of messages, and return the concatenation of what they wrote |
| StreamTheorems.LockstepLines | internal/streaming/streaming.go:85-206 | after every line started equals roleSent, both say whether a message is open in the events written, and texts, message ends and the token count agree |
| StreamTheorems.AnthropicProtocol | internal/streaming/streaming.go:100-142 | on any input the output drives a client automaton from outside a message to outside a message, or into a block holding at least one delta, never into a violation |
| StreamTheorems.OpenAIProtocol | internal/streaming/streaming.go:176-206 | the same for role, contents, finish reason, [DONE] |
| StreamTheorems.TokensCountDeltas | internal/streaming/streaming.go:118-138 | every output_tokens reported equals the number of text deltas written before it, across messages |
| StreamTheorems.EndsOpen | internal/streaming/streaming.go:96-142 | a stream ends inside a message if and only if its last speaking object has no finish reason |
| StreamTheorems.StrictMatchesLive | internal/streaming/streaming.go:20-55 | the strict-mode event stream of a response equals its live translation, token counts apart, if and only if it has both text and a finish reason |
| StreamContents.ResponseRead | internal/streaming/streaming.go:243-257 | of a response whose first candidate speaks, the text of its first part and its finish reason are read, whatever else there is |
| StreamContents.TranscriptFaithful | internal/streaming/streaming.go:94-142 | a transcript keeps every nonempty text and every finish reason of the input, in order, and nothing else |
| StreamContents.ReasonsInStep | internal/streaming/streaming.go:126-141 | on any input the k-th finish reason of both outputs is the one that belongs to the k-th of the input: max_tokens and length for MAX_TOKENS, stop_sequence and content_filter for SAFETY, end_turn and stop for any other |
| StreamContents.WholeReasons | internal/translate/translate.go:146-190 | whole translated messages use the same words for the same finish reasons |
| StreamContents.StreamLabelled | internal/streaming/streaming.go:100-115 | every message of a stream carries the stream's id, model and, for OpenAI, time |
| StreamContents.BlockAt | internal/streaming/streaming.go:34-47 | the three events of the i-th content block of a whole message stand at their place, with its index and text |
| StreamContents.OpenAIStrictEvents | internal/streaming/streaming.go:57-78 | a strict OpenAI stream is one chunk with role and text, one with the finish reason, and [DONE], labelled as the message |
| StreamContents.UsageInStep | internal/translate/translate.go:169-207 | both formats report the same counts, those of Vertex AI |
| StreamContents.WholeShapes | internal/translate/translate.go:161-208 | the fixed fields of whole messages, and where the text of the response stands in them |
| StreamContents.Truncation | internal/translate/translate.go:17-22 | counts are cut towards zero |
| EventStream.AnthropicRoundTrip | internal/streaming/streaming.go:24-54 | a client following sections 9.2.5 and 9.2.6 of the WHATWG HTML Standard dispatches exactly the Anthropic events written, names and payloads, in order |
| EventStream.OpenAIRoundTrip | internal/streaming/streaming.go:62-77 | the same for OpenAI chunks and [DONE], all of type message |
| EventStream.NamesInOrder | internal/streaming/streaming.go:102-140 | on any input the event names a client receives are in the documented order and stop only between messages or after a delta |
| EventStream.ClientSeesWhatIsAudited | internal/handler/anthropic.go:154-170 | the text a client assembles from the bytes written is the text returned for auditing, for every input stream |
| EventStream.OpenAIClientSeesWhatIsAudited | internal/handler/openai.go:169-184 | the same for the OpenAI endpoint |
| RateLimit.Limiter.constructor | internal/ratelimit/ratelimit.go:21-27 | a new limiter stands for the empty history, with no answers given |
| RateLimit.Limiter.Allow | internal/ratelimit/ratelimit.go:29-41 | the answer given and recorded is that of the specification on the key's request times: first of its greedy window, or among the first limit of it |
| RateLimit.Limiter.Cleanup | internal/ratelimit/ratelimit.go:43-52 | exactly the expired entries go, the rest are unchanged, and the limiter still stands for the same request history |
| RateLimit.LeaderProperties | internal/ratelimit/ratelimit.go:33-40 | a window holds the requests up to window after its leader, and leaders lead themselves |
| RateLimit.LeadersApart | internal/ratelimit/ratelimit.go:35-36 | windows of one key start more than window apart |
| RateLimit.RefusedOnlyWhenFull | internal/ratelimit/ratelimit.go:35-40 | a request is refused only if its window is not over and has let limit earlier ones through |
| RateLimit.SlidingBound | internal/ratelimit/ratelimit.go:29-41 | at most 2 limit - 1 requests of sorted times pass in any closed interval no longer than window |
| RateLimit.AnswerStable | internal/ratelimit/ratelimit.go:29-41 | an answer once given is the one the final history explains, at the place of that request among those of its key |
| RateLimit.AdmissionsBounded | internal/ratelimit/ratelimit.go:29-52 | in every history of requests and sweeps, for every key, at most 2 limit - 1 of the answers given in any closed interval no longer than window are yes |
| RateLimit.SlidingBoundTight | internal/ratelimit/ratelimit.go:29-41 | for every limit, and every window of at least one time unit, some history of calls reaches that bound |
| RateLimit.OthersInvisible | internal/ratelimit/ratelimit.go:33-52 | a sweep, or another key's request, inserted anywhere leaves all that a key's answers depend on unchanged |
| RateLimit.OthersChangeNoAnswer | internal/ratelimit/ratelimit.go:33-52 | such an insertion changes no later answer of the key |
| CircuitBreaker.Breaker.constructor | internal/circuitbreaker/circuitbreaker.go:44-52 | a new breaker is in the state of the empty history |
| CircuitBreaker.Breaker.Admit | internal/circuitbreaker/circuitbreaker.go:54-77 | admits exactly when closed, or when no failure was recorded within the reset timeout, and moves to the state of the extended history |
| CircuitBreaker.Breaker.RecordSuccess | internal/circuitbreaker/circuitbreaker.go:79-91 | moves to the state of the history extended by a success |
| CircuitBreaker.Breaker.RecordFailure | internal/circuitbreaker/circuitbreaker.go:93-110 | moves to the state of the history extended by a failure |
| CircuitBreaker.ModeFollowsFailures | internal/circuitbreaker/circuitbreaker.go:54-110 | in every history the breaker is not closed exactly when failures has reached maxFailures, and a half-open breaker still has room for a success |
| CircuitBreaker.FailuresSinceClose | internal/circuitbreaker/circuitbreaker.go:84-97 | failures counts every failure recorded since the last transition to closed, whatever lies between |
| CircuitBreaker.AdmissionExact | internal/circuitbreaker/circuitbreaker.go:61-68 | in every history with late completions, a call is admitted if and only if the breaker is closed or every recorded failure is older than resetTimeout |
| CircuitBreaker.ModeChanges | internal/circuitbreaker/circuitbreaker.go:54-110 | the transition table on histories: closed opens on the failure that fills the count, open turns half-open on a call in a quiet time and on nothing else, half-open closes on a success and opens on a failure |
| CircuitBreaker.StaysOpen | internal/circuitbreaker/circuitbreaker.go:61-68 | however many late reports come, an open breaker stays open until a call comes in a quiet time |
| CircuitBreaker.NeverWedged | internal/circuitbreaker/circuitbreaker.go:61-91 | from every reachable state, once quiet, one admission and one success leave the breaker closed with its count cleared |
| CircuitBreaker.ProbesUnlimited | internal/circuitbreaker/circuitbreaker.go:69-73 | a half-open breaker lets every call through, however many, until one reports back |
| CircuitBreaker.SingleProbeExactly | internal/circuitbreaker/circuitbreaker.go:61-73 | between the call that finds the timeout over and the first report, exactly one call is let through if and only if no other arrives |
| CircuitBreaker.TwoProbes | internal/circuitbreaker/circuitbreaker.go:54-77 | a reachable run, for every configuration with maxFailures at least 1, with two probes in flight |
| CircuitBreaker.FailuresNotConsecutive | internal/circuitbreaker/circuitbreaker.go:83-109 | for every maxFailures of at least 2, a run in which one failure less than that in a row opens the breaker |
| CircuitBreaker.OpensOnConsecutiveExactly | internal/circuitbreaker/circuitbreaker.go:83-109 | when a closed breaker opens, exactly maxFailures failures lie since it became closed, and they are consecutive if and only if no success follows one of them |
| CircuitBreaker.DocumentedExactly | internal/circuitbreaker/circuitbreaker.go:83-109 | in every run the breaker is all the way in the state of the documented one, which counts consecutive failures, if and only if no success arrives while it is closed with failures on the count |
| VertexClient.GuardedCall | internal/vertex/client.go:122-135 | a refused call records only the attempt; an admitted one records success, failure or nothing by its outcome, after whatever other callers recorded meanwhile |
| VertexClient.Conclude | internal/vertex/client.go:127-134 | a response records a success; a transport error, a status from 500 up or 0 a failure; any other status nothing |
| VertexClient.Replay | internal/circuitbreaker/circuitbreaker.go:54-110 | other callers' operations extend the history one by one |
| VertexClient.CalmIsQuiet | internal/vertex/client.go:261-267 | no server or transport error came back recently, if and only if the breaker saw no recent failure |
| VertexClient.ClientAdmission | internal/vertex/client.go:206-219 | for any interleaving of calls, one is let through if and only if the breaker is closed or no call came back with a transport error or a status from 500 up or 0 within resetTimeout |
| VertexClient.TroubleOpens | internal/vertex/client.go:261-267 | maxFailures transport errors or statuses from 500 up open a closed breaker with no failure on the count |
| VertexClient.ClientRecovers | internal/vertex/client.go:206-219 | after a calm time a call is let through, and its success leaves the breaker closed |
| VertexClient.ClientErrorInvisible | internal/vertex/client.go:261-267 | a status error below 500, other than 0, leaves the breaker as it was; any other status error counts as a failure |
| Webhook.BackoffMonotone | internal/webhook/webhook.go:97 | backoffs never shrink and never exceed maxBackoff |
| Webhook.BackoffDoubles | internal/webhook/webhook.go:97 | the first retry waits half a second, each further one twice as long, up to ten seconds |
| Webhook.BackoffBudget | internal/webhook/webhook.go:24-29 | all the waits of one event sum to 3.5 s |
| Webhook.StepKeepsInv | internal/webhook/webhook.go:58-110 | every step of producers, Stop and worker keeps order, conservation, capacity, the attempt bounds and the time waited so far equal to the backoffs passed |
| Webhook.Conservation | internal/webhook/webhook.go:63-92 | in every reachable state the accepted events are the finished ones, then the one in hand, then the queue; accepted and dropped together are all notified; the queue fits its capacity |
| Webhook.NeverGivesUpEarly | internal/webhook/webhook.go:94-110 | until it is stopped, the worker neither ends nor gives up on an event before a send settles it or the fourth is made, after the full waits |
| Webhook.WorkDecreases | internal/webhook/webhook.go:75-110 | every worker step lowers a measure over queue length and remaining attempts |
| Webhook.StoppedWorkerMoves | internal/webhook/webhook.go:75-92 | after Stop a worker that has not exited always has a step to take |
| Webhook.ShutdownTerminates | internal/webhook/webhook.go:75-110 | without further notifications the worker takes at most that measure's number of steps |
| Webhook.WorkBounded | internal/webhook/webhook.go:63-92 | in every run, the worker takes at most ten steps for each notification on top of the measure |
| Webhook.DrainGoesOn | internal/webhook/webhook.go:80-87 | a stopped worker with an empty queue is kept draining by one notification per send, for any number of sends |
| Webhook.StopMayWait | internal/webhook/webhook.go:58-87 | so from a fresh notifier there are runs after Stop of any length in which the worker has not exited |
| Webhook.ShutdownDelivers | internal/webhook/webhook.go:58-61 | after Stop the worker can only rest by exiting, with an empty queue and every accepted event attempted in order |
| Webhook.AcceptedLateIsLost | internal/webhook/webhook.go:79-86 | events accepted by the worker's exit had one to four attempts within 3.5 s of waiting; of those notified later as many as fit stay queued for ever; every accepted event is sent if and only if nothing is notified after the exit |
| Webhook.LateEventLost | internal/webhook/webhook.go:58-87 | a run that accepts an event and never sends it, for every capacity |
| Webhook.Notifier.constructor | internal/webhook/webhook.go:40-51 | a new notifier has taken no step, with capacity 256 when none is given |
| Webhook.Notifier.Notify | internal/webhook/webhook.go:63-73 | without a URL nothing happens; otherwise the event is appended, or dropped when the queue is full |
| Webhook.Notifier.CloseDone | internal/webhook/webhook.go:59 | closing the channel is the Stop step of the protocol |
| Webhook.Notifier.Stop | internal/webhook/webhook.go:58-61 | called wherever the worker is, with finitely many notifications still to come, it returns; the worker has then exited, the queue is empty, and every event accepted until then is finished in order, the rest of those notified dropped |
| Webhook.Notifier.Take | internal/webhook/webhook.go:82-88 | the oldest queued event becomes the one in hand |
| Webhook.Notifier.SendOnce | internal/webhook/webhook.go:112-152 | an attempt asks for a retry exactly on a network error or a status from 500 up; otherwise, or as the fourth, it settles the event |
| Webhook.Notifier.EndWait | internal/webhook/webhook.go:99-103 | the select is a timer or, only once stopped, a cut of the wait, and takes the worker just the protocol step |
| Webhook.Notifier.AwaitBackoff | internal/webhook/webhook.go:96-103 | while others act, the wait ends in full before another attempt, or is cut short, which is possible only once stopped |
| Webhook.Notifier.Attempt | internal/webhook/webhook.go:96-107 | one turn of the retry loop waits first unless it is the first, sends unless stopped, and is the last when settled, stopped or out of retries |
| Webhook.Notifier.SendWithRetry | internal/webhook/webhook.go:94-110 | while others act, one to four sends are made with the backoffs in between, four unless one settles the event or the notifier is stopped, and the event is recorded as finished |
| Webhook.Notifier.Drain | internal/webhook/webhook.go:80-87 | among finitely many notifications the inner loop ends and leaves the queue empty |
| Webhook.Notifier.Turn | internal/webhook/webhook.go:77-91 | one select of the worker: an event is handled, or the stop is seen, or it blocks until another goroutine acts |
| Webhook.Notifier.ProcessQueue | internal/webhook/webhook.go:75-92 | from the start, with producers adding finitely many events and a stop at any time, the worker returns with an empty queue and every event accepted until then finished in order; nothing notified is unaccounted for |
| FanOut.Collect | internal/inspector/inspector.go:99-127 | the collecting loop returns the first blocking result in arrival order, nil exactly when none arrived |
| FanOut.StepKeepsInv | internal/inspector/inspector.go:67-127 | every step keeps the wait group equal to the running goroutines, the results sent equal to those received or buffered, and no panic |
| FanOut.StepDecreases | internal/inspector/inspector.go:67-127 | every step lowers a nonnegative measure |
| FanOut.NoDeadlock | internal/inspector/inspector.go:68-100 | no reachable state before the end is stuck |
| FanOut.EveryRunProceeds | internal/inspector/inspector.go:67-127 | in every interleaving: no send on or second close of a closed channel, never stuck, at most 5n + 4 steps |
| FanOut.FanOutResult | internal/inspector/inspector.go:53-128 | when the collector returns, every inspector ran once and was heard once; the result is the first block in arrival order, and nil if and only if no inspector blocked |
| Policy.Evaluate | internal/policy/engine.go:136-196 | the decision decoded from the evaluation result is that of the specification |
| Policy.DeniedExactly | internal/policy/engine.go:145-195 | a request is denied if and only if the result is a bare false or an object whose allow is false; the reason is the deny_reason, or denied by policy when there is none, and empty for a bare false |
| Policy.FileEngine.constructor | internal/policy/engine.go:59-93 | startup installs the file's policy, or the default one for an empty file, with a running watcher |
| Policy.FileEngine.ApplyPolicy | internal/policy/engine.go:268-286 | an empty or broken text changes nothing; a good one is installed together with the file's time |
| Policy.FileEngine.WatchTick | internal/policy/engine.go:198-218 | one tick of the watcher is one step of the specification |
| Policy.FileEngine.Stop | internal/policy/engine.go:108-119 | the guard closes the channel the first time and leaves all as it is afterwards, so nothing ever panics |
| Policy.StopQuiets | internal/policy/engine.go:108-119 | in every interleaving of ticks, stops and the watcher: no double close; once stopped no tick is taken any more and the watcher can always exit |
| Policy.NothingAfterStop | internal/policy/engine.go:59-119 | from startup, whatever happens before and after a stop: no panic, not one more tick, and the watcher can exit |
| Policy.WatcherInStep | internal/policy/engine.go:198-218 | in every run the installed policy compiled, lastModTime is never ahead of the file, and when equal the installed policy is the file's unless unusable |
| Policy.ReloadRefinesAlways | internal/policy/engine.go:209-215 | with increasing times, the watcher always runs exactly what one would run that reloads at every tick |
| Policy.NextTick | internal/policy/engine.go:198-218 | after any run a good edit is installed by the next successful tick; an unusable one changes nothing at all |
| Policy.CaughtUp | internal/policy/engine.go:277-283 | after any run lastModTime equals the file's time only if the installed policy is that of its content, the default one for an empty file |
| Policy.MissedExactly | internal/policy/engine.go:198-218 | in every run from every start, the watcher agrees all the way with one that reloads at every tick if and only if no successful tick finds good content it does not run yet behind a time that is not later |
| Policy.SameTimeEditMissed | internal/policy/engine.go:209 | a good edit is installed by any number of ticks if and only if its time is later than the one remembered and one of the ticks can stat and read; otherwise nothing changes at all |
| Policy.EditMissed | internal/policy/engine.go:209 | a concrete start and edit that no number of ticks ever installs |
| Translate.ExtractMessageText | internal/translate/translate.go:62-81 | a message's text is its string content, or its bare strings and text blocks joined by spaces |
| Translate.ExtractAnthropicPrompt | internal/translate/translate.go:24-36 | the prompt is the texts of all object messages, joined by spaces |
| Translate.ExtractOpenAIPrompt | internal/translate/translate.go:38-60 | the same when there are messages, else the text parts of Gemini contents |
| Translate.TranslateToGemini | internal/translate/translate.go:83-112 | the request holds the system pair, then one turn per message with text, roles mapped, in order |
| Translate.ExtractGenerationConfig | internal/translate/translate.go:114-144 | the configuration holds the numbers of the body under their Gemini names and its stop sequences, stop before stop_sequences |
| Translate.ConfigMentions | internal/translate/translate.go:114-144 | a string occurs anywhere in the configuration if and only if it occurs among the stop sequences of the body |
| Translate.TurnsEmbedded | internal/translate/translate.go:92-109 | the turns made from any part of a conversation occur in the prompt of the whole one after another, in order |
| Translate.MessageInPrompt | internal/translate/translate.go:29-35 | every message's text is part of the prompt |
| Handler.SplitMessages | internal/handler/openai.go:59-71 | the system text is that of the last system message; the others are kept in order |
| Handler.ExtractPrompt | internal/handler/anthropic.go:50 | the prompt screened is that of the endpoint's extractor |
| Handler.BuildRequest | internal/handler/openai.go:73-74 | the request forwarded is made from the body's system text, conversation and generation parameters |
| Handler.CheckGates | internal/handler/anthropic.go:22-57 | all gates open exactly for the requests that pass every check; otherwise the first closed gate alone answers, and exactly the denial or block is logged |
| Handler.CheckContent | internal/handler/anthropic.go:44-57 | the policy and the prompt screening, with what they log |
| Handler.CallAndDecode | internal/handler/anthropic.go:73-82 | a call ends in a decoded response or in the reason there is none |
| Handler.ServeStrict | internal/handler/anthropic.go:72-110 | no text is written before exactly it has passed screening; the last effect is the one reply: the text, or the refusal of the call, the model's filter or the screening |
| Handler.ScreenAndWrite | internal/handler/openai.go:104-123 | the strict reply to a decoded response is its text in the requested form if screening passes it, else the refusal |
| Handler.ServeLive | internal/handler/anthropic.go:112-139 | fast mode writes the whole or streamed text unscreened as the one reply, and what it accumulates is what it wrote |
| Handler.WriteStream | internal/handler/openai.go:153-169 | the live stream delivers the transcript's text and returns just that |
| Handler.AuditResponse | internal/handler/mode.go:20-27 | a nonempty text is screened once and a block is only logged |
| Handler.ServeAudit | internal/handler/anthropic.go:141-171 | the reply is that of fast mode, all text written is screened afterwards, and nothing else is |
| Handler.WriteMessage | internal/handler/anthropic.go:99-109 | whichever form the client asked for, it receives exactly the response's text, under the model's name |
| Handler.WriteReply | internal/handler/openai.go:116-123 | JSON and event stream deliver the same text |
| Handler.TranslatedAnthropic | internal/translate/translate.go:146-174 | a translated message delivers the response's text |
| Handler.TranslatedOpenAI | internal/translate/translate.go:176-209 | the same, and it always has the choice that the event writer indexes |
| Handler.AnthropicStreamText | internal/streaming/streaming.go:20-55 | written as an event stream, a message delivers the same text as written as JSON |
| Handler.OpenAIStreamText | internal/streaming/streaming.go:57-78 | the same for OpenAI |
| Handler.Dispatch | internal/handler/anthropic.go:62-69 | every known mode, and no other, goes to Vertex AI, keeps its screening promise and answers just as specified; an unknown one does nothing |
| Handler.Serve | internal/handler/anthropic.go:22-70 | Vertex AI is called if and only if every gate is open and the mode is known, once, right after all gates, with the request made from the screened body; strict text is screened before, fast text never, audit text afterwards; the client receives exactly the specified answer, once; exactly the specified actions are logged |
| Handler.ConversationScreened | internal/handler/openai.go:50-74 | on both endpoints the forwarded conversation turns occur in the screened prompt one after another in message order |
| Handler.OpenAICoverage | internal/handler/openai.go:50-74 | the text of every turn forwarded, system text included and the fixed acknowledgement excepted, is part of the screened prompt; with the generation parameters, every string forwarded is if and only if each stop sequence of the body is |
| Handler.AnthropicCoverage | internal/handler/anthropic.go:50-60 | every string forwarded, generation parameters included, is part of the screened prompt if and only if the top-level system text and each stop sequence happen to be; the turns alone if and only if the system text is |
| Handler.SystemUnscreened | internal/handler/anthropic.go:50-60 | every nonempty system text sent without messages is forwarded while the screened prompt is empty |
| Handler.StopUnscreened | internal/translate/translate.go:134-142 | on both endpoints, every nonempty stop sequence sent without messages is forwarded while the screened prompt is empty |
| Conversation.MessageTextExactly | internal/translate/translate.go:62-81 | a message's text is its string content, or what its text blocks and bare strings say, separated by spaces and other blocks skipped; nothing for any other content |
| Conversation.PromptExactly | internal/translate/translate.go:24-41 | on both endpoints the prompt is the texts of all object messages, in order, separated by spaces |
| Conversation.ContentsScreened | internal/translate/translate.go:42-57 | of an OpenAI body without messages but with Gemini contents, every text part is in the prompt |
| Conversation.SystemTextExactly | internal/handler/openai.go:59-71 | the OpenAI system text is the content of the last system message if that is a string, and empty otherwise |
| Conversation.AnthropicForwarded | internal/handler/anthropic.go:59-60 | the request is the system text of the body with its acknowledgement, if any, then one turn for every object message with text, in order, of role model exactly for assistants |
| Conversation.OpenAIForwarded | internal/handler/openai.go:59-74 | the request is the text of the last system message with its acknowledgement, if any, then one turn for every other object message with text, in order, of role model exactly for assistants |
| Conversation.NumbersForwarded | internal/translate/translate.go:114-133 | each of the six numbers arrives under its Gemini name exactly when the body holds it as a number |
| Conversation.StopsForwarded | internal/translate/translate.go:134-142 | a list under stop, else a single string there, else a list under stop_sequences is forwarded as stopSequences, and nothing else is added |
| Answers.GateAnswers | internal/handler/anthropic.go:22-57 | 405, the rejection of authentication or user agent, 413, 400, 403 with the reason of the policy, or a refusal with the reason of the screening: the first gate that does not open answers, in this order |
| Answers.CalledExactly | internal/handler/anthropic.go:22-70 | Vertex AI is called if and only if method, authentication, user agent, body, policy and prompt screening all let the request through and the mode is known |
| Answers.CalledAfterGates | internal/handler/openai.go:22-74 | before the one call every gate has been passed, the screening with the prompt of this body |
| Answers.BlockedExactly | internal/handler/anthropic.go:84-86 | the model's filter has blocked exactly when promptFeedback is an object with a non-null blockReason, and its message is the string blockReasonMessage |
| Answers.CallFailures | internal/handler/anthropic.go:73-82 | a failed call is refused with its error, an undecodable response with a decode error |
| Answers.StrictExactly | internal/handler/anthropic.go:84-110 | in strict mode every response is refused with the filter's message if it has a block reason, else refused with the screening's reason if its text is blocked, else delivered in the form and under the model asked for |
| Answers.LiveExactly | internal/handler/anthropic.go:112-139 | in fast and audit mode the whole response or the stream, as asked for, is delivered as it comes, or the failure of its call reported |
| Answers.ForbiddenExactly | internal/handler/handler.go:165-181 | a request that gets as far as the policy is answered with 403 and the deny reason if and only if the policy evaluated to an explicit false, and then Vertex AI is not called |
| Answers.LoggedExactly | internal/handler/mode.go:20-58 | each action is logged exactly when the denial, block or delivery it names has happened, and no other action is |
| Answers.ReportedExactly | internal/handler/mode.go:37-48 | the notifier hears of a request if and only if the policy denies it or a screening of the proxy blocks its prompt, its strict response or its audited text |
| Answers.ModelBlockUnreported | internal/handler/anthropic.go:84-88 | a response blocked by the model's filter is logged, and nothing of it is reported to the notifier |
| Screening.ScreenedExactly | internal/inspector/inspector.go:53-128 | the chain hands the handler a block if and only if some inspector blocks, errors alone counting as passes, and its reason is that of one that blocks |
| Screening.PromptPassesExactly | internal/handler/anthropic.go:52-62 | a request that reaches the screening gets to Vertex AI if and only if no inspector blocks its prompt, in any order of completion, and the mode is known; else the client is refused with the reason of one that blocks |
| Screening.ResponsePassesExactly | internal/handler/anthropic.go:84-110 | in strict mode the answer to a nonempty response without a block reason, which `Serve` delivers, is its text if and only if no inspector blocks it, and else the refusal with the reason of one that blocks |

## Left out

- Text is a sequence of Unicode characters: invalid UTF-8, and reads that end inside a character, are not modelled; nor is the 32 KiB bound on one read.
- Streaming.StreamGeminiAsAnthropic: the `capture` pointer is not modelled (both handlers pass nil); the loop body is a method of its own, `AnthropicLine`, likewise `OpenAILine`.
- The decoded object that `ParseGeminiChunk` also returns: neither translator uses it.
- StreamTheorems.StrictMatchesLive: leaves token counts apart, because `IntVal` reads only decoded numbers and so the whole-message writer reports 0 for counts the proxy itself put in.
- EventStream.AnthropicRoundTrip: takes it that encoded payloads hold no CR or LF, which `json.Marshal` escapes; OpenAIRoundTrip likewise.
- EventStream.ClientSeesWhatIsAudited: takes it that the client's parser inverts the encoder on the events written; OpenAIClientSeesWhatIsAudited likewise.
- The rate limiter's HTTP middleware, and entries as pointers: an entry is a value in the map.
- Breaker.Execute: the client calls the three operations directly; it is `GuardedCall` with every error counted.
- CircuitBreaker.Breaker.constructor: `halfOpenMax` is the constant 1 it is always set to; properties of reachable states take `maxFailures >= 1`, which `NewClient` sees to.
- VertexClient.GuardedCall: request bodies, URLs, tokens and spans are not modelled, only how the call ends; `CallJSON`, `CallJSONForModel` and `CallStream` share its skeleton.
- Webhook.Notifier.Stop: a second call, which panics, is excluded.
- Webhook.Notifier.SendOnce: the HTTP exchange is an arbitrary outcome; timestamps, headers and payload are not modelled.
- Webhook.Notifier.ProcessQueue: the other goroutines are a finite schedule that ends up stopping the notifier, and act when the worker looks at a channel; the class methods need a URL, without which `Notify` does nothing.
- `Chain.Names`, `Chain.TestMethods`, metrics and logging of the fan-out.
- FanOut.FanOutResult: an inspector's verdict is a fixed arbitrary value and its call terminates.
- The policy's URL source: it reloads at every tick without a time check, which is the specification `LastGood` itself; a file and a URL together share one ticker and are not modelled.
- Policy.ReloadRefinesAlways: ticks are atomic with respect to edits; a write between the read and the second stat is not modelled.
- Policy.FileEngine.Stop: two calls at the same time, which may both see the channel open, are not modelled; a disabled engine has neither ticker nor channel.
- Rego: a compiled policy is represented by its text, and compiling and evaluating are arbitrary.
- Handler.Serve: authentication, user-agent check, policy, inspectors and Vertex AI are arbitrary answers (`Screening` and `ForbiddenExactly` put the chain and the policy engine in their place); the rate-limit middleware and headers are not modelled, nor what is logged beyond the action.
- Anthropic and OpenAI handlers: one model with a format parameter, since both files have the same skeleton.
- The raw Vertex pass-through handler, health, model list, CORS, demo client, configuration, tracing and main: plumbing that would only add easy members.

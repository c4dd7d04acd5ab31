# Agent session: model and proofs

This project models the part of the agent backend that stands between a running agent
process and the user: the pump that turns backend events into frames, the progress cards
it keeps, the manager that builds and kills agents, their runtime tokens and leases, the
attachment marker in a message, and the catalog of available agents.

Everything is stated twice. A function says on plain values what an operation does to the
state; a class performs it in place, field by field and loop by loop, and each of its
methods is proved equal to the function. The theorems are about the functions, over every
run, every interleaving or every text.

| file | subject |
|---|---|
| `WorkflowProgress.dfy` | the progress ledger of one background container |
| `SessionEvents.dfy` | events, frames and the stateless translation |
| `PumpModel.dfy`, `SessionPump.dfy` | one step of the pump as a function, and the pump as an object |
| `PumpControl.dfy`, `TurnEndings.dfy` | how turns end: a small automaton the pump refines, and its theorems |
| `PumpHistory.dfy`, `TurnClosing.dfy` | the pump's variables as facts about its history; closing a turn |
| `CardLedger.dfy`, `CardNews.dfy` | what a card shows and when, by the history of its ledger; cards and their frames by the inputs of the run |
| `TurnFrames.dfy` | the frames themselves: what ends a turn and what it says, what passes through, session and arguments |
| `ResultFates.dfy` | what becomes of each result, told by what the pump does with it |
| `OwedFinish.dfy`, `CardConservation.dfy` | the Finish held back for a workflow; cards from opening to settlement |
| `Media.dfy` | the attachment marker and the partition of attachments |
| `RuntimeToken.dfy`, `TokenHistory.dfy` | tokens, and the verdict on a token by the history of issues and revocations |
| `ActiveLease.dfy` | lazily expiring leases |
| `TaskManager.dfy`, `TaskProtocol.dfy` | the task manager one call at a time, and under every interleaving |
| `TaskGuarantees.dfy` | when a kill leaves nothing running, and when a request is met: the exact conditions |
| `Registry.dfy`, `RegistryProbes.dfy` | the availability state of the agent catalog; what each operation decides about a row, by the machine's answers |
| `Wrappers.dfy`, `Texts.dfy`, `Ordering.dfy` | optional values, trimming, and the order of strings |

## How the model reads the code

* One input of the pump is an envelope or a one-second tick, with the time it is handled
  at. Rust's hash maps are walked in no particular order, so an input carries the orders
  in which the cards and the open calls are walked; the theorems hold for all of them.
* The classification of a process exit is that of `crash_outcome`
  (`crates/aionui-session/src/reducer.rs:479-496`).
* Time is an unbounded integer in the pump. Its only uses are differences compared with a
  constant, and saturation at the ends of the 64-bit range does not change those
  comparisons. Leases, whose expiry saturates, model the saturation.
* The words on a card are a parameter (`Style`); ids, statuses, order and timing are not.
* Random draws, the hash, the clock, the file system and the answers of `PATH` lookups and
  version probes are parameters.

## What the proofs found

* **A turn can end without a Finish in two ways.** After a turn has ended, content re-arms
  the pump for a turn the backend starts on its own, but resets neither the status nor the
  guard against a second Finish. If that turn launches a workflow, has its result held back,
  and the workflow is then interrupted, the drain finds the status already Finished and
  sends nothing (`OwedFinishCanBeLost`); the Finish goes out exactly when no terminal closed
  a turn earlier in the same generation (`OwedFinishIsPaid`). If an earlier workflow of the
  generation was drained, the guard swallows that turn's real Finish
  (`RealFinishCanBeSwallowed`); `SuppressionIsExact` says by history alone when a clean
  result turns into nothing, a break or a Finish.
* **The marker round trip has an exact domain.** It holds for every text, and for a
  non-empty list of paths exactly when each is non-empty, trimmed, on one line and free of
  the marker (`RoundTripExactly`).
* **A kill can leave an agent of its slot running, and it is known when.** An awaited kill
  always reaches the build in flight (`AwaitedKillReachesTheBuild`), but other callers may
  hold the slot and build later. It leaves nothing running, whatever happens next, iff the
  slot is built when it is taken away or no caller holds it waiting for its turn
  (`AwaitedKillIsFinal`); a plain kill, iff the slot is built, or nobody holds it and nobody
  is building in it (`PlainKillIsFinal`).
* **A caller may be served less than it asked for, and it is known when.** A caller that
  joins a build in flight takes what is being built (`JoinersTakeWhatIsBuilt`). Every served
  caller is sure to get what it asked for iff no two requests for one conversation ask for
  different capabilities (`RequestsAreMetWhenTheyAgree`).
* **A catalog row can be unavailable without a reason**, and only by one route: a handshake
  for a row that is not cached yet and whose snapshot gives no reason
  (`OnlySilentHandshakesHush`); such a handshake is possible in every reached state
  (`AnyNewRowCanHush`).

## Model

| member | source | states |
|---|---|---|
| `TurnEndings.GenerationIsolation` | crates/aionui-ai-agent/src/session_agent.rs:2417-2479 | two pumps in any states, fed the same messages from a newer generation on, end every turn with the same Finish, Error and SegmentBreak kinds, whatever their clocks, ticks and walking orders |
| `TurnEndings.AtMostOneTerminal` | crates/aionui-ai-agent/src/session_agent.rs:2822-2874 | from one arming point (newer generation, explicit start, content after a terminal) up to the next, all results and the drain together send at most one Finish or Error |
| `TurnEndings.DebtStaysOpen` | crates/aionui-ai-agent/src/session_agent.rs:2726-2731 | in every run an owed Finish coexists neither with a terminal of the turn nor with the synthetic guard |
| `TurnEndings.FrameAccounting` | crates/aionui-ai-agent/src/session_agent.rs:2922-3006 | over every run: Finishes = closing results + drains that found the status open + quiet exits outside the guard; Errors = error results + crashes; SegmentBreaks = results held back |
| `ResultFates.FateShows` | crates/aionui-ai-agent/src/session_agent.rs:2449-2457 | what a step does for each fate: a duplicate changes nothing and sends nothing; a swallowed result sends no terminal, and settles the turn unless a workflow holds it open, when it changes nothing; a segmented one sends the break alone and leaves a Finish owed; the other two settle the turn and end with their terminal |
| `ResultFates.EffectTellsFate` | crates/aionui-ai-agent/src/session_agent.rs:2951-2986 | the observable effect of a result identifies its fate, in both directions, for all five fates |
| `ResultFates.ResultAccounting` | crates/aionui-ai-agent/src/session_agent.rs:2922-3006 | over every run the results are those ignored, muffled, turned into a break, finished and failed, each told by its effect; the breaks are all breaks sent, and finished and failed ones together with drains and exits are all Finishes and Errors |
| `TurnEndings.StepAccounts` | crates/aionui-ai-agent/src/session_agent.rs:3827-3899 | the same accounting for one step: which cause sends which terminal, and that no two causes meet |
| `TurnEndings.RunRefinesControl` | crates/aionui-ai-agent/src/session_agent.rs:2263-3026 | over every run the pump ends turns exactly as the six-variable automaton does on the bare messages |
| `PumpControl.PumpRefinesControl` | crates/aionui-ai-agent/src/session_agent.rs:2417-3007 | one envelope moves the pump's control variables, and sends the terminal kinds, of one automaton step; a tick does neither |
| `PumpHistory.SuppressionIsExact` | crates/aionui-ai-agent/src/session_agent.rs:2778-2788 | by history alone: a clean result of a turn that is settled, or whose workflow was drained since the last new turn, sends no terminal; otherwise it becomes a SegmentBreak iff some admitted workflow container has not ended since the last new turn, and else a Finish |
| `PumpHistory.SyntheticIsHistory` | crates/aionui-ai-agent/src/session_agent.rs:2726-2731 | the guard against a second Finish is up iff the cancel drain happened since the last new turn; content does not lower it |
| `PumpHistory.TerminalSeenIsHistory` | crates/aionui-ai-agent/src/session_agent.rs:2449-2479 | a further result is a duplicate iff a result was honoured or drained and neither a new turn nor content came since |
| `PumpHistory.ContentReopens` | crates/aionui-ai-agent/src/session_agent.rs:2417-2479 | in every state a settled turn is opened again by exactly these: an announced turn, a message or thought, a call or its result, a permission request, or a newer generation whose first event is not a result |
| `PumpHistory.RosterIsHistory` | crates/aionui-ai-agent/src/session_agent.rs:2652-2689 | the roster holds exactly the refs admitted as workflow containers and not ended since the last new turn or drain |
| `PumpHistory.DebtIsHistory` | crates/aionui-ai-agent/src/session_agent.rs:2980-2986 | a Finish is owed iff a result was held back and nothing settled the debt since |
| `PumpHistory.StatusIsHistory` | crates/aionui-ai-agent/src/session_agent.rs:2822-2826 | the status is Finished iff some step closed a turn since the last new turn |
| `PumpHistory.NoWorkflowNoRoster` | crates/aionui-ai-agent/src/session_agent.rs:2658-2677 | a run that admits no workflow container keeps the roster empty and sends no SegmentBreak |
| `OwedFinish.OwedFinishIsPaid` | crates/aionui-ai-agent/src/session_agent.rs:2710-2768 | a debt met by a terminal other than Completed with no other workflow running is settled in that step, with card settlements, then cancelled calls, then one Finish iff no terminal closed a turn earlier in the generation |
| `OwedFinish.CompletionLeavesTheDebt` | crates/aionui-ai-agent/src/session_agent.rs:2693-2696 | a Completed terminal sends no terminal frame and leaves the Finish owed |
| `OwedFinish.OwedFinishCanBeLost` | crates/aionui-ai-agent/src/session_agent.rs:160-175 | a legal run in which a held-back result is settled and its turn gets no Finish at all |
| `OwedFinish.RealFinishCanBeSwallowed` | crates/aionui-ai-agent/src/session_agent.rs:2945-2957 | a legal run in which the guard of a drained turn swallows the real Finish of the turn after it |
| `OwedFinish.TipIsExact` | crates/aionui-ai-agent/src/session_agent.rs:2884-2899 | by history alone: the diagnostic tip is sent iff a clean result comes in a turn that is not settled, was not drained and has no workflow running, and nothing visible was shown since the previous closing step; and it is the tip of that outcome |
| `OwedFinish.TipPrecedesFinish` | crates/aionui-ai-agent/src/session_agent.rs:2958-2967 | in everything ever sent a tip is immediately followed by a Finish |
| `TurnFrames.TurnEndIsExact` | crates/aionui-ai-agent/src/session_agent.rs:3827-3899 | every Finish, Error and SegmentBreak of every run and what it carries, by history alone: which result, exit or container's end sends which of them, a failure with the text of its result, a crash with its exit, a Finish with the session |
| `TurnFrames.MemoryIsHistory` | crates/aionui-ai-agent/src/session_agent.rs:2903-2905 | in every run the session is the one announced last, and the arguments of a call those it was made with last |
| `TurnFrames.ContentIsShown` | crates/aionui-ai-agent/src/session_agent.rs:3769-3826 | in every state content is shown at once and as it came: text, thoughts, calls, permissions and asides; a call's result as error or completed, under the call's name, and as running while a card of the call is live |
| `TurnFrames.RowOnlyIsExact` | crates/aionui-ai-agent/src/session_agent.rs:3511-3552 | a row is repainted without a card exactly when a container this pump has no card for ends under a known call, with the outcome and nothing else |
| `TurnClosing.ToolClosure` | crates/aionui-ai-agent/src/session_agent.rs:2853-2897 | a step cancels a call iff it closes the turn and the call's latest ToolCall since the previous closing step has no later result; each once, all before the Finish or Error, and afterwards no call is open or named |
| `TurnClosing.OpenCallsAreHistory` | crates/aionui-ai-agent/src/session_agent.rs:2808-2821 | the open calls are exactly those whose latest ToolCall of the turn has no later result |
| `TurnClosing.NamesAreHistory` | crates/aionui-ai-agent/src/session_agent.rs:2814-2817 | the remembered name of a call is the one its latest ToolCall of the turn gave |
| `TurnClosing.OpenStaysNamed` | crates/aionui-ai-agent/src/session_agent.rs:2814-2815 | in every run the open calls are a submap of the remembered names |
| `TurnClosing.VisibilityIsHistory` | crates/aionui-ai-agent/src/session_agent.rs:2942-2944 | the visible-output flag holds iff a visible event came after the last closing step |
| `TurnClosing.FollowUpsKeepTheName` | crates/aionui-ai-agent/src/session_agent.rs:3690-3701 | a result or output frame of a call carries the name its latest ToolCall of the turn gave |
| `TurnClosing.OutputFramesAreCumulative` | crates/aionui-ai-agent/src/session_agent.rs:2488-2509 | an output frame carries, in order, everything streamed for its call since the last closing step |
| `TurnClosing.StepCancels` | crates/aionui-ai-agent/src/session_agent.rs:2750-2762 | a closing step cancels the open calls, each once under its own name and before any terminal; no other step cancels any |
| `TurnClosing.ClosingStep` | crates/aionui-ai-agent/src/session_agent.rs:2822-2900 | a closing step sends card news, then settled cards, then cancelled calls, then the end of the turn, and forgets the turn |
| `CardConservation.CardConservation` | crates/aionui-ai-agent/src/session_agent.rs:3016-3024 | at stream end no card is left, and the cards ever opened number the settlements sent plus the workflow cards that never had an agent |
| `CardConservation.CardsBalance` | crates/aionui-ai-agent/src/session_agent.rs:3416-3636 | over every run every card in the map is Running, and cards at the start + opened = cards left + settlements sent + blank removals |
| `CardConservation.RemovedCardIsSettled` | crates/aionui-ai-agent/src/session_agent.rs:3645-3688 | a removed card with something to show is repainted terminal under its own call in that step, with no agent row left executing |
| `CardConservation.TornDownCardIsSettled` | crates/aionui-ai-agent/src/session_agent.rs:3009-3024 | at stream end every card left with something to show is repainted terminal under its own call |
| `CardConservation.Survivors` | crates/aionui-ai-agent/src/session_agent.rs:2839-2852 | a closing step leaves no card, except that a clean result leaves exactly the background-task cards, unchanged |
| `CardNews.CardIsHistory` | crates/aionui-ai-agent/src/session_agent.rs:3577-3634 | in every run each card in the map was opened by one input and is the opening card moved on by the news since: reports to its container, phases and ticks, each followed by the offer it makes |
| `CardNews.FramesAreHistory` | crates/aionui-ai-agent/src/session_agent.rs:2633-2645 | in every legal run the progress frames sent under a card's call since it was opened are exactly the emissions of that history, each with what the ledger rendered then, as long as no other card is of that call |
| `CardNews.StepShowsCard` | crates/aionui-ai-agent/src/session_agent.rs:3596-3618 | in a step a card lives through, the frames under its call are what the step adds to its history |
| `CardNews.StepOpensCard` | crates/aionui-ai-agent/src/session_agent.rs:3435-3509 | a card enters the map exactly when an active container is announced under a call, a background task only under a call of this turn, and it starts with that call's name and arguments |
| `CardNews.StepRemovesCard` | crates/aionui-ai-agent/src/session_agent.rs:3511-3576 | a card leaves the map exactly when its container ends or the turn closes, unless a clean result spares a background card |
| `CardNews.StepShowsFarewell` | crates/aionui-ai-agent/src/session_agent.rs:3553-3575 | the step in which a card leaves sends, under its call, one frame with the outcome and every agent's row done, or none if the card never had content |
| `CardNews.TeardownIsFarewell` | crates/aionui-ai-agent/src/session_agent.rs:3009-3024 | the same at stream end, as cancelled |
| `SessionPump.EventPump.Handle` | crates/aionui-ai-agent/src/session_agent.rs:2417-3007 | handling one envelope in place yields the state and appends the frames of one model step |
| `SessionPump.EventPump.Heartbeat` | crates/aionui-ai-agent/src/session_agent.rs:2394-2412 | one tick offers every open card once and appends what was due |
| `SessionPump.EventPump.Shutdown` | crates/aionui-ai-agent/src/session_agent.rs:3009-3024 | the end of the stream settles and drops every card |
| `SessionPump.EventPump.Consume` | crates/aionui-ai-agent/src/session_agent.rs:2388-3007 | consuming a stream of envelopes and ticks in place yields the state and appends the whole output of the model's run |
| `SessionPump.EventPump.UpdateCards` | crates/aionui-ai-agent/src/session_agent.rs:3416-3636 | roster news opens, feeds, forces or closes the ledger objects and appends their frames |
| `SessionPump.EventPump.SettleCards` | crates/aionui-ai-agent/src/session_agent.rs:3645-3688 | the loop over the cards removes exactly those not kept and appends one frame for each that is not blank |
| `SessionPump.EventPump.CancelOpenTools` | crates/aionui-ai-agent/src/session_agent.rs:2853-2869 | the drain of the open calls appends one Canceled frame a call and leaves none open |
| `SessionPump.EventPump.EmitFinishOnce` | crates/aionui-ai-agent/src/session_agent.rs:160-175 | a Finish is appended iff the status was not Finished, and the status is Finished afterwards |
| `SessionPump.EventPump.TrackRoster` | crates/aionui-ai-agent/src/session_agent.rs:2652-2771 | the roster and the cancel drain, in place |
| `SessionPump.EventPump.Boundary` | crates/aionui-ai-agent/src/session_agent.rs:2792-2907 | the turn-boundary match, in place, and the tip it computes |
| `SessionPump.EventPump.Deliver` | crates/aionui-ai-agent/src/session_agent.rs:2922-3006 | translation, naming, shielding, guard, tip, suppression and delivery of one event, in place |
| `SessionPump.EventPump.ShieldLive` | crates/aionui-ai-agent/src/session_agent.rs:3401-3414 | a frame on a call with a live card is shown as running, any other frame unchanged |
| `WorkflowProgress.StableRoster` | crates/aionui-ai-agent/src/workflow_progress.rs:434-488 | over any operations of one card the id list of an earlier emission is a prefix of every later one, and the first id never changes |
| `WorkflowProgress.DistinctIds` | crates/aionui-ai-agent/src/workflow_progress.rs:434-488 | the ids of one emission are distinct |
| `WorkflowProgress.EntryIdsNeverCollide` | crates/aionui-ai-agent/src/workflow_progress.rs:434-488 | when call ids hold no colon, row ids of two cards are equal only for the same call and the same agent |
| `WorkflowProgress.RosterIsLatest` | crates/aionui-ai-agent/src/workflow_progress.rs:92-108 | a card that starts empty lists exactly the agents reported to it, and each field of each is the most recent present value, the loop state also counting the settlement |
| `WorkflowProgress.EmissionRateBound` | crates/aionui-ai-agent/src/workflow_progress.rs:289-323 | with a clock that does not run back, a window of T ms holds at most T/500 + 1 unforced emissions |
| `WorkflowProgress.EmissionsAreSpaced` | crates/aionui-ai-agent/src/workflow_progress.rs:289-323 | an unforced emission comes at least 500 ms after the previous one and does not repeat its content |
| `WorkflowProgress.ForcedOffersAllShow` | crates/aionui-ai-agent/src/workflow_progress.rs:289-323 | over any operations the forced emissions are exactly the forced offers, in order, made to a background card or to a card some agent was reported to |
| `CardLedger.OfferIsExact` | crates/aionui-ai-agent/src/workflow_progress.rs:289-323 | after any history an offer goes out exactly when the card is a background card or was reported an agent, and it is forced, or nothing was sent yet, or the last emission is 500 ms old and showed something else than the ledger renders now; it then shows what the ledger renders |
| `CardLedger.LedgerIsHistory` | crates/aionui-ai-agent/src/workflow_progress.rs:247-283 | agents are listed in the order of their first report; a phase has the title it was given last; the last touched agent is the last reported one; the status is that of the last settlement |
| `CardLedger.RenderShowsHistory` | crates/aionui-ai-agent/src/workflow_progress.rs:330-345 | a rendered workflow card has one row an agent in that order, named by its label, done iff its loop is; the title row counts the time since the card was opened; a background card has no rows |
| `WorkflowProgress.WorkflowCard.UpsertAgent` | crates/aionui-ai-agent/src/workflow_progress.rs:253-272 | the search-or-append loop yields the model's upsert and forces exactly on a new agent or a changed loop state |
| `WorkflowProgress.WorkflowCard.SettleAs` | crates/aionui-ai-agent/src/workflow_progress.rs:275-283 | settlement in place closes every agent and sets the status |
| `WorkflowProgress.WorkflowCard.Emit` | crates/aionui-ai-agent/src/workflow_progress.rs:289-323 | an offer in place sends, and remembers, exactly what the model's offer does |
| `Media.RoundTrip` | crates/aionui-ai-agent/src/media.rs:124-143 | for any text, even one that contains the marker, stripping what was appended for carried paths gives the text back |
| `Media.RoundTripExactly` | crates/aionui-ai-agent/src/media.rs:124-143 | for a non-empty list of paths the round trip holds iff every path is non-empty, trimmed, newline-free and marker-free |
| `Media.BlockLayout` | crates/aionui-ai-agent/src/media.rs:137-143 | no paths leave the text alone; the first opens the block behind an empty line, and each further one is one more line |
| `Media.PartitionMedia` | crates/aionui-ai-agent/src/media.rs:61-89 | the partition loop computes the two lists and the rewritten content of the specification |
| `Media.PartitionIsComplete` | crates/aionui-ai-agent/src/media.rs:70-77 | both lists keep the order of the files, and every file is in exactly one of them |
| `Media.PartitionOfMessage` | crates/aionui-ai-agent/src/media.rs:79-89 | a message that names its files keeps its text and names exactly the path files, and a second pass changes nothing |
| `Media.PathsStayPaths` | crates/aionui-ai-agent/src/media.rs:92-119 | the files that stayed paths all stay paths in a second pass |
| `RuntimeToken.OneLiveToken` | crates/aionui-ai-agent/src/runtime_token.rs:81-112 | in every state reached by issuing and revoking, a user has at most one live token for a conversation, stored under the hash of a drawn token |
| `RuntimeToken.ExistingIgnoresOrder` | crates/aionui-ai-agent/src/runtime_token.rs:114-137 | which token is reused does not depend on the order the map is walked in |
| `RuntimeToken.IssuedTokenValidates` | crates/aionui-ai-agent/src/runtime_token.rs:139-169 | an issued token, new or reused, validates for every requested scope |
| `RuntimeToken.RevocationIsPermanent` | crates/aionui-ai-agent/src/runtime_token.rs:171-186 | with fresh draws and an injective hash, a token that is no longer live stays unknown through every later run |
| `RuntimeToken.IssueReplaces` | crates/aionui-ai-agent/src/runtime_token.rs:104-111 | issuing makes the user's earlier token for the conversation unknown iff it does not serve the request, and leaves the tokens of everyone else untouched |
| `TokenHistory.StoreIsHistory` | crates/aionui-ai-agent/src/runtime_token.rs:81-112 | after any issues and revocations the store holds exactly the tokens of the issues that drew one and were neither revoked nor replaced since, with the claims asked for |
| `TokenHistory.VerdictIsExact` | crates/aionui-ai-agent/src/runtime_token.rs:139-169 | the verdict on any text presented by anybody: Missing for blank text, Unknown when no live issue drew it, and else the first of user, conversation, scope and generation that differs from that issue, or its claims |
| `TokenHistory.AcceptedIsIssued` | crates/aionui-ai-agent/src/runtime_token.rs:156-168 | a token is accepted iff a live issue drew it for that user, conversation and generation with the scope among its scopes |
| `RuntimeToken.RuntimeTokenService.IssueToken` | crates/aionui-ai-agent/src/runtime_token.rs:81-112 | issuing in place yields the model's store and entry |
| `ActiveLease.LeasesRefineTheClock` | crates/aionui-ai-agent/src/active_lease.rs:24-48 | after any renewals and questions with a clock that does not run back, a conversation is active iff its last renewal has not run out, and until then |
| `ActiveLease.ActiveLeaseRegistry.RenewMany` | crates/aionui-ai-agent/src/active_lease.rs:30-38 | the loop gives every listed conversation the same expiry and counts the list |
| `ActiveLease.ActiveLeaseRegistry.Ask` | crates/aionui-ai-agent/src/active_lease.rs:40-48 | the question answers the expiry while it is ahead and otherwise removes the lease |
| `TaskManager.BuiltTaskSatisfies` | crates/aionui-ai-agent/src/task_manager.rs:169-211 | run alone, a successful call leaves in the slot an agent, the one returned, whose stored capabilities satisfy the request |
| `TaskManager.LiveAgentIsReused` | crates/aionui-ai-agent/src/task_manager.rs:189-210 | run alone, a call that finds an agent whose version will do returns that agent and changes nothing |
| `TaskManager.StubbornAgentEndsTheCall` | crates/aionui-ai-agent/src/task_manager.rs:174-184 | an outdated agent that fails to stop ends the call with its error: it is out of the map and told to stop, the conversation's tokens are revoked, and nothing is built |
| `TaskManager.BuildEndsAsTheFactoryDoes` | crates/aionui-ai-agent/src/task_manager.rs:197-210 | otherwise the factory is asked exactly once, for the request as it came but for a rebuild's token, and the result and the slot are as the factory ends |
| `TaskManager.RebuildKeepsTheEnvironment` | crates/aionui-ai-agent/src/task_manager.rs:152-160 | on the rebuild path the factory sees the other environment entries as they were and in order, and the new token after them |
| `TaskManager.RebuildRenewsTheToken` | crates/aionui-ai-agent/src/task_manager.rs:137-160 | on the rebuild path the factory sees exactly one token entry, which validates for its scopes, and every earlier token of the conversation is unknown |
| `TaskManager.IdleScanIsExact` | crates/aionui-ai-agent/src/task_manager.rs:299-343 | the scan returns exactly the initialised ACP tasks with status None or Finished, idle past the threshold at its start, and with no lease still running at the moment the scan comes by, although it removes leases as it goes |
| `TaskManager.ClearEmptiesTheManager` | crates/aionui-ai-agent/src/task_manager.rs:275-286 | clearing leaves no slot, stops every agent in a slot once and revokes the tokens of exactly those conversations |
| `TaskManager.WorkerTaskManager.GetOrBuildTask` | crates/aionui-ai-agent/src/task_manager.rs:169-211 | the call in place, with kill, token renewal, slot and factory, equals the model's, errors included |
| `TaskManager.WorkerTaskManager.KillTask` | crates/aionui-ai-agent/src/task_manager.rs:213-232 | a kill removes the slot, revokes the conversation's tokens, and stops the agent of an initialised slot |
| `TaskManager.WorkerTaskManager.Clear` | crates/aionui-ai-agent/src/task_manager.rs:275-286 | the loop over the keys equals the fold of kills |
| `TaskManager.WorkerTaskManager.CollectIdle` | crates/aionui-ai-agent/src/task_manager.rs:299-343 | the loop returns the scan's list and leaves its leases |
| `TaskProtocol.CellIsSetOnce` | crates/aionui-ai-agent/src/task_manager.rs:189-210 | under every interleaving a cell once set keeps its agent for the rest of the run |
| `TaskProtocol.SlotServesOneAgent` | crates/aionui-ai-agent/src/task_manager.rs:189-210 | two callers served from one slot have the same agent, built by one of the slot's callers for what that caller asked |
| `TaskProtocol.OneAgentBetweenKills` | crates/aionui-ai-agent/src/task_manager.rs:189-210 | callers that enter a conversation with no kill or rebuild of it in between are served one agent, whatever happens later |
| `TaskProtocol.OneAgentWithoutKills` | crates/aionui-ai-agent/src/task_manager.rs:189-210 | in a run without kills and rebuilds of a conversation all its served callers have the same agent |
| `TaskProtocol.AwaitedKillReachesTheBuild` | crates/aionui-ai-agent/src/task_manager.rs:234-273 | an awaited kill that takes a slot with a build in flight does not resolve before the build is over, and if it succeeded its agent has been told to stop |
| `TaskProtocol.PlainKillMissesTheBuild` | crates/aionui-ai-agent/src/task_manager.rs:213-232 | a plain kill that looks at a cell still being built never stops the agent of that build |
| `TaskProtocol.AgentFate` | crates/aionui-ai-agent/src/task_manager.rs:213-286 | every built agent is either still mapped and not told to stop, or its slot was taken by a kill, and it was told to stop iff that kill resolved having stopped it |
| `TaskProtocol.MappedAgentsLive` | crates/aionui-ai-agent/src/task_manager.rs:213-286 | an agent the map leads to has never been told to stop |
| `TaskGuarantees.AwaitedKillIsFinal` | crates/aionui-ai-agent/src/task_manager.rs:234-273 | in every reached state: an awaited kill leaves no agent of its slot running in any continuation once it has resolved, iff the slot is built when it is taken away or no caller holds it waiting for its turn |
| `TaskGuarantees.PlainKillIsFinal` | crates/aionui-ai-agent/src/task_manager.rs:213-232 | the same of a plain kill, iff the slot is built, or no caller holds it and none is building in it |
| `TaskGuarantees.KillIsFinal` | crates/aionui-ai-agent/src/task_manager.rs:213-273 | the same of any kill, a rebuild's included, at the moment it looks into the cell |
| `TaskGuarantees.AwaitedKillCanBeOvertaken` | crates/aionui-ai-agent/src/task_manager.rs:258-269 | a concrete interleaving in which an awaited kill resolves and the agent built afterwards is served, unmapped and left running |
| `TaskGuarantees.RequestsAreMetWhenTheyAgree` | crates/aionui-ai-agent/src/task_manager.rs:174-210 | in every interleaving of a given set of requests every served caller's agent satisfies its request, iff any two requests for one conversation satisfy each other, that is, ask for the same |
| `TaskGuarantees.JoinersTakeWhatIsBuilt` | crates/aionui-ai-agent/src/task_manager.rs:189-210 | for any two requests for one conversation there is an interleaving in which the second is served the agent built for the first |
| `TaskGuarantees.OutdatedAgentIsNotServed` | crates/aionui-ai-agent/src/task_manager.rs:174-184 | a caller that finds an agent whose version will not do is never served that agent, in any interleaving |
| `TaskGuarantees.GoodAgentIsNotRebuilt` | crates/aionui-ai-agent/src/task_manager.rs:174-176 | a caller that finds an agent that will do enters and has nothing rebuilt |
| `TaskGuarantees.FailedRebuildIsNotServed` | crates/aionui-ai-agent/src/task_manager.rs:182-183 | by history: a caller back from its rebuild fails, and is never served, exactly when the old agent would not stop, and goes on to enter otherwise |
| `TaskGuarantees.RebuildNeverWaits` | crates/aionui-ai-agent/src/task_manager.rs:182-183 | in every continuation the kill of a rebuild waits for no build, whatever it finds in the slot |
| `Registry.ReasonsMeanUnavailable` | crates/aionui-ai-agent/src/registry.rs:167-253 | under every sequence of the five operations with distinct row ids a recorded reason belongs to a cached, unavailable row |
| `Registry.HydrateSettlesEverything` | crates/aionui-ai-agent/src/registry.rs:269-303 | after loading, a row is unavailable iff it has a reason, and every deferred probe belongs to an available builtin row |
| `Registry.RefreshSettlesEverything` | crates/aionui-ai-agent/src/registry.rs:375-411 | the same after re-probing the cached rows in any state; only availability and the resolved command of a row may change |
| `Registry.RecheckOnlyWritesSnapshots` | crates/aionui-ai-agent/src/registry.rs:314-362 | the recheck empties the pending list, changes neither availability nor reasons, and rewrites the snapshots of exactly the waiting rows, Online iff the wider probe succeeded |
| `Registry.RecheckDecidesDeferral` | crates/aionui-ai-agent/src/registry.rs:928-982 | after a recheck the next refresh defers an available builtin row again iff the recheck timed out, was slower than the threshold, or the new inline probe times out |
| `Registry.OnlySilentHandshakesHush` | crates/aionui-ai-agent/src/registry.rs:218-235 | when every unavailable row has a reason, an operation breaks that iff it is a handshake for an uncached row whose snapshot is silent |
| `Registry.AnyNewRowCanHush` | crates/aionui-ai-agent/src/registry.rs:995-1020 | in every reached state a handshake for a never checked builtin row that is not cached leaves it unavailable without a reason |
| `Registry.CheckOrderDoesNotMatter` | crates/aionui-ai-agent/src/registry.rs:984-993 | checks that finish in another order give the same cached rows, the same reasons and the same sorted deferred list |
| `Registry.HydrateIgnoresOrder` | crates/aionui-ai-agent/src/registry.rs:269-303 | loading the same rows in another order gives the same registry |
| `Registry.RefreshIgnoresOrder` | crates/aionui-ai-agent/src/registry.rs:375-411 | re-probing the cache in another order gives the same registry |
| `RegistryProbes.RefreshDecides` | crates/aionui-ai-agent/src/registry.rs:375-411 | after re-probing, row by row by the machine's answers: an installed builtin row stays available iff it is known to be slow or its command is found and its package lock readable; no reason then, and PrimaryUnusable otherwise; put off iff slow or timed out; started from the resolved path; nothing else changes |
| `RegistryProbes.HydrateDecides` | crates/aionui-ai-agent/src/registry.rs:922-982 | after loading, the same for every row that decodes; a version that breaks leaves the row available and recorded Offline, a passing one leaves the snapshot as it was |
| `RegistryProbes.ReloadDecides` | crates/aionui-ai-agent/src/registry.rs:415-441 | a reload makes one row available iff everything it needs is on the machine, runs no version and touches no other row |
| `RegistryProbes.RecheckRecords` | crates/aionui-ai-agent/src/registry.rs:314-362 | a recheck records for each waiting row whether the wider probe passed, the code of the failure, the cost, and the time as that of a success or a failure |
| `RegistryProbes.HandshakeDecides` | crates/aionui-ai-agent/src/registry.rs:212-235 | a handshake touches only a shared row: a cached one keeps availability, path and reason, a new one is available iff its snapshot says it was checked and nothing was missing |
| `RegistryProbes.RecordedReasonMeans` | crates/aionui-ai-agent/src/registry.rs:1050-1081 | a row judged without probing gives the reason its last check recorded, with the piece the row names for it |
| `RegistryProbes.VersionProbeMeans` | crates/aionui-ai-agent/src/cli_probe.rs:85-110 | the version probe succeeds iff the command is found, the lock readable, and the run skipped or passing, and otherwise fails for the first thing wrong |
| `Registry.AgentRegistry.HydrateRows` | crates/aionui-ai-agent/src/registry.rs:269-303 | loading in place yields the model's three maps |
| `Registry.AgentRegistry.RefreshAvailability` | crates/aionui-ai-agent/src/registry.rs:375-411 | re-probing in place, collection and write-back loops included, yields the model's three maps |
| `Registry.AgentRegistry.CheckAll` | crates/aionui-ai-agent/src/registry.rs:375-399 | the collection loop gathers each check once, with its reason and whether it was deferred |
| `Registry.AgentRegistry.ReloadOne` | crates/aionui-ai-agent/src/registry.rs:415-441 | reloading one row in place drops it or replaces it and its reason, and leaves the deferred list |
| `Registry.AgentRegistry.ApplyHandshake` | crates/aionui-ai-agent/src/registry.rs:212-235 | a handshake in place keeps the availability of a cached row and judges a new one by its snapshot |
| `Registry.AgentRegistry.RunSlowProbeRecheck` | crates/aionui-ai-agent/src/registry.rs:314-362 | the recheck loop in place yields the model's snapshots and an empty list |

## Left out

- Tokio: broadcast capacity and lag, timers, task spawning, locks and poisoning. Frames are an output sequence, and steps are atomic.
- The Start frame of `send_message` and the Finish of a kill are sent by other actors and are not part of the pump's output here; the status they write is only written by the pump in the model.
- SessionPump.EventPump.Handle: does not model the side effects between the boundary match and delivery, which are session persistence and the usage broadcast, nor the last-activity stamp; they go to other components and nothing in the pump reads them back.
- Contents of the config-option and slash-command frames; the model says only whether each is sent.
- The text of a card: padding, clock, tokens, model names, elision and the per-phase counters that go into it.
- The classification of an upstream error's text; an error result is one Error frame.
- Reading the bytes of an attachment, and its degradation when the file changes in between.
- Token generation and SHA-256: a draw and a hash are parameters, fresh and injective where a theorem says so.
- Tokens in `TaskProtocol`: revocation and renewal are proved for calls run one at a time.
- Task protocol fairness: the theorems are safety, nothing is said about a step that is never taken.
- TaskGuarantees.AwaitedKillIsFinal: does not model the order in which a once-cell serves its waiters; any order is allowed, so the condition is sufficient whatever the order is, and it is necessary because a caller may have taken hold of the slot without having reached the cell. Served first come, first served, a caller that already waits in the cell would come before the kill.
- Concurrent registry operations: each of the five is one step, while the code takes the locks of the three maps one after the other.
- Database errors, and the handshake columns that do not bear on availability.
- The summary and per-row log lines of the registry.
- Everything else in the repository: adapters, repositories, the relay, the extension host and the HTTP surface.

# Caravan survival game: turn and event engine

A Dafny model of the turn and event engine of a turn-based caravan survival
game. A crew of four travels 1000 km. Every travel step eats food and adds
distance, and then a remote text-generation service is asked for a
narrative event. The player picks one of the event's choices. The service
is then asked for the outcome, and the outcome's deltas and crew status
changes are merged into the session. The session ends in defeat when the
whole crew is dead, and in victory when the distance is reached.

Modules, one per source file or component:

- `Wrappers` (`wrappers.dfy`): `Option` and `Result`.
- `Text` (`text.dfy`): how a template string prints a number, and `join`.
- `Types` (`types.dfy`): the enumerations and records of `types.ts`, with
  their string values.
- `Gateway` (`gateway.dfy`): `services/geminiService.ts`. It holds the call to
  the chat-completions endpoint, the extraction of the message content, the
  event request (category pick, crew summary, fallback event) and the
  resolution request (missing-event error, choice lookup, fallback
  resolution). These are pure functions.
- `Ledger` (`ledger.dfy`): the state updaters of `App.tsx` as functions on
  the session record. It also holds the initial state, the terminal check,
  the session invariant and the lemmas about all of these.
- `Session` (`session.dfy`): the class `Game`. It has one field per field of
  the session record, plus the `loading` flag. Its methods are the user
  intents: start, travel, choose, continue and reset. Each method's
  `ensures` ties the new state to the Ledger function of the old state.
  Every intent method and the constructor also keep `Valid()`: 0 ≤ distance
  ≤ 1000, mood in [0, 100], food ≥ 0, day ≥ 1, and the crew roster fixed at
  session start. The two building blocks `SetGameState` and `CheckTerminal`
  do not require or promise `Valid()`; their callers establish it.

Modelling choices:

- Food and food deltas are integers counting tenths of a kilogram. A member
  eats 15 per travel step. Rounding to one decimal is then the identity.
- The remote service is an oracle inside `Gateway.Backend`. Its fields are:
  - the configured API key;
  - a function from each request (`Prompt`: the data a prompt embeds, without
    its prose) to the HTTP response, or to `None` when the request is
    rejected;
  - `JSON.parse` plus the unchecked cast, for events and for resolutions.
- Response bodies are `JsValue`s. This captures JavaScript truthiness, the
  `typeof` tests and the optional chaining of `callPacky`.
- `Math.random` becomes the category index parameter `k`, with `k < 6`.
- The React effect that checks for the end of the game is the method
  `CheckTerminal`. It is called after every state change the effect watches.
- Travel has one suspension point, and the model makes it explicit:
  - `BeginTravel` is the part that runs before the request;
  - `CompleteTravel` is the part that runs when the event arrives;
  - `Travel` runs the two with the gateway call in between.

- The `Parse*` functions of `Types` are not called by the model. They pin
  down the string-literal union domains of `types.ts`: each says which
  strings are values of that enumeration.
- The interface disables the travel button (App.tsx:314) and the choice
  buttons (components/EventCard.tsx:43) while `loading` is set. The model
  has only the handlers, so `HandleEventChoice` can be called while loading.

Behaviours the code has, as the model states them:

- The `travel` handler checks only `loading` (App.tsx:88), not the phase.
  The interface shows the travel button only in the TRAVEL phase
  (App.tsx:297-314), so through the interface a step starts only there. The
  model has the handler alone, so `Session.Game.Travel` accepts any phase.
- `handleEventChoice` has no `loading` guard (App.tsx:137-140). It sets
  `loading` and clears it again on both paths.
- A resolution can write any status over a dead member, so a dead member can
  become healthy again (App.tsx:148-153; `Ledger.DeadMemberCanBeOverwritten`).
- Parsed payloads are cast to their types without validation
  (services/geminiService.ts:110, 165).
- The event request is built from a separate snapshot, not from the
  committed post-travel state. The snapshot has the new day and the reduced
  food, but the distance and mood from before the step
  (`Ledger.TravelSnapshotAgainstStep`).
- `currentEvent` and `lastResolution` can be set together only when
  `travel` is called outside TRAVEL, which the interface never does. The
  merge clears the event when it records a resolution (App.tsx:162-165).
  `continueJourney` clears the resolution before TRAVEL (App.tsx:185). A
  travel step run while a resolution is recorded keeps it beside the new
  event (`Ledger.TravelKeepsStaleResolution`).
- Terminal phases are not absorbing. The travel step that reaches 1000 km
  first triggers VICTORY through the effect. The event response then sets
  EVENT_DECISION. The effect runs again and restores VICTORY, and the event
  stays recorded (`Ledger.TravelTurnOutcome`).

## Model

| member | source | states |
|---|---|---|
| `Types.ParsePhase` | types.ts:1-9 | a string names a phase exactly when it is that phase's enum value |
| `Types.PhasesEnumerated` | types.ts:1-9 | there are exactly seven phases, each listed once, with pairwise different values |
| `Types.ParseRole` | types.ts:22 | a string is a role label exactly when it is one of the four role labels |
| `Types.ParseStatus` | types.ts:23 | a string is a status label exactly when it is one of the four status labels (the same set as a change's new status) |
| `Types.ParseChoiceType` | types.ts:44 | a string is a choice type exactly when it is aggressive, diplomatic, sacrifice or neutral |
| `Text.NatToString` | App.tsx:110 | a printed number is a non-empty digit string with no leading zero, and has one digit exactly when the number is below 10 |
| `Text.NatToStringRoundTrip` | App.tsx:110 | reading the printed digits back gives the number |
| `Text.IntToString` | App.tsx:110 | a printed integer is non-empty; a non-negative one is all digits with no leading zero reading back to the number, and a negative one is "-" followed by digits with no leading zero reading back to its magnitude |
| `Text.TenthsToString` | App.tsx:96-110 | a whole number of kilograms prints as digits only; any other amount prints as the whole kilograms printed as a natural number (no leading zero), a point and one non-zero digit |
| `Text.TenthsToStringRoundTrip` | App.tsx:96-110 | reading the printed amount back (digits times ten plus the decimal digit) gives the tenths again |
| `Text.TenthsPrinting` | App.tsx:96-110 | 4.5 kg prints as "4.5", 6 kg as "6", and 0 as "0" |
| `Text.Join` | services/geminiService.ts:85 | joining no parts gives "", and joining one part gives that part |
| `Text.JoinLength` | services/geminiService.ts:85 | the joined length is the parts' total length plus one separator's length per gap |
| `Text.JoinSnoc` | services/geminiService.ts:85 | joining one more part appends the separator and that part |
| `Gateway.Truthy` | services/geminiService.ts:50 | `!v` is true exactly for undefined, null, false, 0 and "" |
| `Gateway.MessageContent` | services/geminiService.ts:48 | the optional chain gives the content when every link exists (`choices` an array, or an object with a "0" key, as `?.[0]` reads either), and undefined when any link is missing (not an object, no `choices`, no first element, no `message`, no `content`) |
| `Gateway.ApiKeyMissing` | services/geminiService.ts:20 | the key counts as missing exactly when its JavaScript value is falsy: unset or "" |
| `Gateway.ExtractContent` | services/geminiService.ts:48-63 | falsy content is an empty-response failure; a non-empty string is returned as it is; for an array, the first element is returned if it is a string, else that element's `text` if that is a string; every other shape is unsupported |
| `Gateway.CallPacky` | services/geminiService.ts:19-64 | without a key it fails before any request; a rejected request, a non-ok status, a non-JSON body or unusable content each fail; otherwise it yields the extracted content |
| `Gateway.EventFocus` | services/geminiService.ts:67-75 | the focus is always one of the six fixed categories |
| `Gateway.CrewEntry` | services/geminiService.ts:84 | an entry is the member's name, then " [", the role label, ": ", the status label and "]" |
| `Gateway.CrewEntries` | services/geminiService.ts:83-84 | one `name [role: status]` entry per member, in crew order |
| `Gateway.CrewSummary` | services/geminiService.ts:83-85 | an empty crew gives ""; one member gives its entry; otherwise the first entry, ", ", and the summary of the rest |
| `Gateway.CrewEntriesSnoc` | services/geminiService.ts:84 | one more member adds one more entry at the end |
| `Gateway.CrewSummarySnoc` | services/geminiService.ts:83-85 | the summary lists members in crew order, separated by ", "; one member gives just its entry |
| `Gateway.EventPromptFor` | services/geminiService.ts:77-85 | the event request carries the state's biome, day, food, mood, crew summary and one of the six foci |
| `Gateway.FallbackEvent` | services/geminiService.ts:113-125 | the fallback event has exactly one choice: id "wait", neutral, risk "安全" |
| `Gateway.GenerateGameEvent` | services/geminiService.ts:66-127 | never fails: a failed call, a missing key or an unparsable reply yields the fallback event, otherwise the parsed event |
| `Gateway.FirstChoiceIndex` | services/geminiService.ts:135 | the index of the first choice with the id: no earlier choice has it, and the index is the length when none has it |
| `Gateway.FindChoice` | services/geminiService.ts:135 | the chosen option is the first choice with the id; it is absent exactly when no choice has that id |
| `Gateway.ResolutionPromptFor` | services/geminiService.ts:135-142 | the resolution request carries the event's title and description, the looked-up option (possibly absent), food, mood and crew |
| `Gateway.FallbackResolution` | services/geminiService.ts:168-174 | the fallback resolution: food −2 kg, mood −5, distance 0, no crew changes |
| `Gateway.ResolveGameEvent` | services/geminiService.ts:129-176 | fails exactly when there is no current event, with that error and regardless of the service; otherwise a failed call or an unparsable reply yields the fallback resolution, and a parsed reply is returned |
| `Ledger.InitialCrew` | App.tsx:10-15 | the crew is four healthy members with ids "1" to "4" and roles leader, doctor, soldier and cook, in that order |
| `Ledger.InitialState` | App.tsx:17-30 | INITIAL_STATE is in the menu on day 1, with 50 kg of food, mood 100, 0 of 1000 km, the initial crew, the arid-shrubland biome, the three fixed log lines, no event and no resolution |
| `Ledger.StartState` | App.tsx:10-30 | a new session is in the travel phase with 4 healthy crew, 50 kg of food, mood 100, 0 of 1000 km, day 1, no event and no resolution |
| `Ledger.AliveCount` | App.tsx:95 | the living count never exceeds the crew size |
| `Ledger.AliveCountZero` | App.tsx:67-71 | nobody is counted alive exactly when every member is dead |
| `Ledger.TravelStepEffect` | App.tsx:95-111 | food becomes what is left after 1.5 kg per living member, never negative; mood drops by a flat 20, floored at 0, exactly when no food is left; day +1; distance +25 capped at the total; phase EVENT_GENERATION; exactly one log line appended; nothing else changes |
| `Ledger.FoodConsumed` | App.tsx:95-96 | a step eats a multiple of 1.5 kg, at most 1.5 kg per member, and nothing exactly when the whole crew is dead |
| `Ledger.TravelLog` | App.tsx:110 | the travel log line is "第 ", the printed new day, " 天: 前行 25km。消耗 ", the printed amount eaten and "kg 食物。", in that order |
| `Ledger.TravelStep` | App.tsx:98-112 | the committed step keeps food ≥ 0; day +1; phase EVENT_GENERATION; an empty larder means mood −20 floored at 0; distance never exceeds the total; exactly one log line is appended; crew, event and resolution are unchanged |
| `Ledger.TravelSnapshot` | App.tsx:115-120 | the request snapshot has day +1 and the food left after eating, never negative; every other field (distance, total distance, mood, crew, biome, phase, logs, event and last resolution) is the one from before the step |
| `Ledger.TravelSnapshotAgainstStep` | App.tsx:115-120 | the request snapshot agrees with the committed step on day, food and crew, but keeps the distance and mood from before the step |
| `Ledger.ApplyStatusChange` | App.tsx:148-153 | a single change keeps the crew length; every other member is unchanged; the named member, when its index exists, takes the new status and keeps its id, name and role |
| `Ledger.ApplyStatusChanges` | App.tsx:144-154 | the crew merge keeps the crew length and every member's id, name and role |
| `Ledger.ApplyStatusChangesUntouched` | App.tsx:147-154 | a member that no change names keeps its record |
| `Ledger.ApplyStatusChangesLastWins` | App.tsx:147-154 | a member takes the status of the last change naming its index, so a later change to the same index wins |
| `Ledger.DeadMemberCanBeOverwritten` | App.tsx:148-153 | a change can turn a dead member healthy again |
| `Ledger.ResolutionLog` | App.tsx:164 | the resolution log line is "事件结果: " followed by the outcome text |
| `Ledger.MergeResolution` | App.tsx:156-166 | the merge keeps food ≥ 0, mood in [0, 100] and distance in [0, total]; it clears the event, records the resolution, sets EVENT_RESOLUTION, appends one log line, and keeps the day and crew length |
| `Ledger.MergeResolutionEffect` | App.tsx:156-166 | food = max(0, food + change); mood and distance are the sums clamped to [0, 100] and [0, total] (a sum below 0 gives 0, a sum above the bound gives the bound, a sum in range is kept); the crew is the in-order application of the status changes; the event is cleared; the resolution is recorded; phase EVENT_RESOLUTION; one log line appended; crew length and identities kept |
| `Ledger.TerminalCheck` | App.tsx:66-78 | the check changes at most the phase; the new phase is the old one, GAME_OVER or VICTORY; it moves to GAME_OVER only when nobody is alive, and to VICTORY only with a survivor and the distance reached |
| `Ledger.TerminalCheckEffect` | App.tsx:66-78 | only the phase changes; nothing happens in MENU, GAME_OVER or VICTORY; otherwise an all-dead crew gives GAME_OVER before distance is considered, and a reached distance with someone alive gives VICTORY |
| `Ledger.TerminalCheckIdempotent` | App.tsx:66-78 | running the check again changes nothing |
| `Ledger.InitialStateInvariant` | App.tsx:17-30 | the initial and start states satisfy the session invariant |
| `Ledger.TravelKeepsInvariant` | App.tsx:98-112 | a travel step keeps distance in [0, total], mood in [0, 100], food ≥ 0, day ≥ 1 and the roster |
| `Ledger.MergeKeepsInvariant` | App.tsx:156-166 | merging any resolution keeps the invariant |
| `Ledger.TerminalCheckKeepsInvariant` | App.tsx:66-78 | the terminal check keeps the invariant |
| `Ledger.ReceiveEventKeepsInvariant` | App.tsx:124-128 | the arrival of any event keeps the invariant |
| `Ledger.ContinueJourneyKeepsInvariant` | App.tsx:185 | continuing the journey keeps the invariant |
| `Ledger.TravelTurnOutcome` | App.tsx:87-135 | after a whole travel turn the event is recorded; the session is lost if nobody is alive, won if the distance is reached, and otherwise awaits a decision |
| `Ledger.TravelKeepsStaleResolution` | App.tsx:98-134 | a travel turn run while a resolution is recorded leaves the new event and that resolution recorded together |
| `Ledger.ResolutionOutcome` | App.tsx:137-181 | after a merge and the check, nobody alive gives GAME_OVER whatever the distance, a reached distance with a survivor gives VICTORY at once, and otherwise the phase stays EVENT_RESOLUTION |
| `Ledger.FirstTurnScenario` | App.tsx:95-111 | the first turn of a new session leaves 44 kg of food, 25 km, day 2, mood 100, and phase EVENT_DECISION |
| `Ledger.StarvationScenario` | App.tsx:99-108 | eating the last 1.5 kg with one member alive leaves no food, and mood goes from 100 to 80 |
| `Ledger.ReceiveEvent` | App.tsx:124-128 | the arriving event is recorded and the phase becomes EVENT_DECISION; nothing else changes |
| `Ledger.ContinueJourney` | App.tsx:185 | continuing returns to TRAVEL, clears the last resolution, and changes nothing else |
| `Session.MergeCrew` | App.tsx:144-154 | the copy-and-overwrite loop computes exactly the in-order application of the changes |
| `Session.Game.constructor` | App.tsx:48-49 | the session starts as INITIAL_STATE in the menu, with loading false |
| `Session.Game.SetGameState` | App.tsx:84 | `setGameState` with a whole record (as in startGame and the reset buttons): the fields become exactly that record; loading is untouched |
| `Session.Game.CheckTerminal` | App.tsx:66-78 | the effect's new state is the terminal check of the old state |
| `Session.Game.StartGame` | App.tsx:80-85 | the session becomes the start state; loading is untouched |
| `Session.Game.Reset` | App.tsx:240-258 | the reset buttons of the defeat screen (App.tsx:240) and the victory screen (App.tsx:258) put the session back to INITIAL_STATE in the menu |
| `Session.Game.BeginTravel` | App.tsx:87-120 | while loading, nothing changes; otherwise loading is set, the travel step is committed, the terminal check runs, and the request snapshot is returned |
| `Session.Game.CompleteTravel` | App.tsx:122-134 | the event is recorded, the phase becomes EVENT_DECISION, the terminal check runs, and loading is cleared |
| `Session.Game.Travel` | App.tsx:87-135 | while loading, a no-op; otherwise the whole turn completes with the generated (or fallback) event for the snapshot, and loading ends cleared |
| `Session.Game.ApplyResolution` | App.tsx:143-167 | the new state is the merge of the resolution into the old state |
| `Session.Game.HandleEventChoice` | App.tsx:137-181 | with no current event, the state is unchanged; otherwise the resolution is merged and the terminal check runs; loading ends cleared either way |
| `Session.Game.ContinueJourney` | App.tsx:183-186 | the new state is the terminal check of the continued state |

## Left out

- Rendering, styling, sound (`playSound`, `audioManager`), the canvas
  background, log auto-scrolling and console logging: presentation only.
- The prose of the prompts, `fetch`, HTTP headers and the request body:
  the network is an oracle. Each request is modelled by the data it
  embeds: `Prompt.EventPrompt` and `Prompt.ResolutionPrompt`.
- `JSON.parse` and the casts: they are part of the oracle. A parsed payload
  is assumed to already have the declared shape, because the code validates
  nothing. Payloads with missing fields or out-of-set enum strings therefore
  cannot be expressed.
- JavaScript numbers are not modelled:
  - food is in integer tenths, so `toFixed(1)` and floating-point noise are
    not modelled;
  - deltas, distances and mood are integers, so fractional values or NaN
    from the generator are not modelled;
  - a `memberIndex` that is not an integer is not modelled (the code treats
    it like any other missing index).
- Async interleaving and React batching are not modelled. Each intent
  method runs to completion. The one exception is travel, which is split at
  its request. A resolution therefore always merges into the state that
  asked for it.
- The `catch` of `travel` (App.tsx:130-131) is not modelled as a path. The
  event request never fails, so only `playSound('event')` (App.tsx:129) can
  reach it. The sound code can throw while it sets up audio
  (utils/audio.ts:175-177, 30). By then the state update is already queued,
  so the `catch` changes no state.
- The unused `credits` field is not modelled. `GameEvent.imageUrl` is carried
  as a field, but nothing reads it, as in types.ts:51. The biome never
  changes here.
- Sound calls are assumed to return. `audioManager.init()` and
  `playSound('start')` (App.tsx:82-83), `playSound('click')` (App.tsx:89,
  138, 184) and `playSound('travel')` (App.tsx:90) run before any state
  change; if one threw, the handler would end
  with nothing changed (travel would not even set `loading`), whereas the
  model's methods always go ahead.
- `Ledger.TravelStepEffect`: `toFixed(1)` is not modelled, so it does not
  state the rounding of food to one decimal. With food in tenths the
  rounding would change nothing.

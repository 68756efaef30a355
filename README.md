# Interview simulator core, modelled in Dafny

This project models the deterministic core of a synthetic-interview simulator. A "market researcher" agent walks a
study's discussion guide block by block and asks questions. A "respondent" agent, playing a generated clinician
persona, answers them. The project proves properties of that control logic.

Both agents are large-language-model calls. Here they are oracles: a finite sequence of backend results, one per
loop iteration (`Interview.Replies`), each of which may say that one of the two calls raised. The random draws of profile generation and of the respondent's pre-call hook
are parameters.

Modules:

- `Common` (common.dfy) holds options, results and the errors the source raises, messages and profiles.
- `Context` (context.dfy) holds the study context record (`StudyContext`) and the discussion-guide blocks.
- `Format` (format.dfy) covers Python's `str(int)`, the `03d` format and `"\n".join` / `split("\n")`. Each
  formatter comes with the parser that undoes it.
- `Interview` (interview.dfy) is the loop of `simulate_conversation` as a function over the backend results
  (`Iterate`, `Converse`). It comes with the invariants the loop keeps: alternation of questions and answers,
  respondent windows, and the order in which blocks are visited.
- `Users` (users.dfy) covers `generate_users`: seed draws, the age, the descriptor, and the loop that builds the
  batch (`GenerateProfiles`, a method proved against `Generated`).
- `Simulation` (simulator.py's `Simulator`, in simulator.dfy) covers several pieces:
  - `_initial_context` and the saved record;
  - the load-or-generate step of `__init__` (`Initialise`, `NewSimulator`);
  - the `Simulator` class, whose `SimulateConversation` method runs the loop imperatively and is proved equal to
    `Conversation`. Its data directory is a `DataRoot` object whose maps stand for the study files and the
    per-run directories.
- `Hooks` (hooks.dfy) covers the respondent's pre-call hook:
  - the friction directive, as a function of the two draws and the catalogue pick;
  - `on_llm_start`, which inserts into the caller's list in place (`InputList`, `OnLlmStart`).

The opening "Hi" turn is only the researcher's input while the dialogue is empty
(user_simulator/simulator.py:146); it is never stored. `Interview.ConversationTranscript` proves that every stored
dialogue alternates non-empty researcher questions and respondent answers.

## Model

| member | source | states |
|---|---|---|
| Interview.Iterate | user_simulator/simulator.py:145-179 | one pass of the `while True` body: the researcher call, the `finished` branch with `_next_block`, the ValueError, the respondent call and the two appends, or the backend exception of either call (its properties are the `Iterate…` rows below) |
| Interview.Converse | user_simulator/simulator.py:145-181 | the whole loop over the backend results, until it breaks, raises or (a limit of the model) runs out of results (its properties are the `Converse…` and `Conversation…` rows) |
| Interview.Outcome | user_simulator/simulator.py:158-185 | the loop's result is the dialogue exactly when it ended with the `break`; otherwise it is the exception that ended it |
| Interview.InterviewLoop | user_simulator/simulator.py:142-181 | the imperative `while True` loop, with `block_index`, `context.discussion_block` and `dialogue` updated in place, returns exactly `Outcome(Converse(...))` |
| Interview.ConverseStepAt | user_simulator/simulator.py:145-179 | one pass from any point of the results: it raises the backend exception, ends the guide, raises the ValueError, or hands the next pass the next block or the dialogue grown by the question and the stored answer |
| Interview.NextBlock | user_simulator/simulator.py:106-110 | the lookup yields a block exactly when `0 <= index < len(blocks)`, and then it is `blocks[index]`; other indexes never touch the list |
| Interview.RespondentWindow | user_simulator/simulator.py:170-171 | the respondent is shown `min(4, len(dialogue))` turns, the last ones of the dialogue |
| Interview.IterateAsks | user_simulator/simulator.py:163-179 | an output that is not `finished` and carries a non-empty question extends the dialogue by exactly that question and the stored answer (`""` when the respondent gave none). The respondent saw the last four turns ending with the question. The block is unchanged, and exactly one researcher call was made, shown the greeting or the dialogue |
| Interview.IterateAdvances | user_simulator/simulator.py:154-161 | a `finished` output in a block that is not the last moves to `blocks[block_index + 1]`. The dialogue is unchanged even when the output also carries a question |
| Interview.IterateEndsGuide | user_simulator/simulator.py:154-159 | a `finished` output in the last block ends the loop normally, with the dialogue unchanged |
| Interview.IterateBackendRaises | user_simulator/simulator.py:147-173 | a researcher call that raises, or a respondent call that raises after a question, ends the loop with the backend's exception. The dialogue is as it was before the pass, and the failed researcher call is recorded with no output |
| Interview.IterateRaises | user_simulator/simulator.py:163-164 | an absent output, or one with no or an empty question and no `finished`, raises the ValueError. The dialogue and the respondent calls are unchanged |
| Interview.IterateCallsResearcher | user_simulator/simulator.py:146-152 | every iteration makes exactly one researcher call, with the result it consumes, and shows it the greeting when the dialogue is empty and the whole dialogue otherwise |
| Interview.StartConsistent | user_simulator/simulator.py:140-143 | the loop starts in block 0 with an empty dialogue, satisfying the loop invariant |
| Interview.IterateKeepsConsistent | user_simulator/simulator.py:145-179 | one iteration keeps the invariant: alternation, one respondent window per exchange, each call made in the block its preceding `finished` outputs reached. It stops normally exactly when the block index has passed the last block |
| Interview.ConverseUsesPrefix | user_simulator/simulator.py:145-152 | the loop consumes a prefix of the backend results, one researcher call each, and stops early only by halting |
| Interview.ConverseConsumes | user_simulator/simulator.py:145-152 | the loop consumes the backend results in order: the researcher call recorded for the k-th result used has that result's output |
| Interview.ConverseFirstCall | user_simulator/simulator.py:146 | the first researcher call of a run is shown the greeting or the dialogue it started from |
| Interview.ConverseRaises | user_simulator/simulator.py:147-173 | the loop raises only the missing-question ValueError, when the last result it consumed has neither `finished` nor a question, or the backend's exception, when a call of that last result raised |
| Interview.ConverseKeepsConsistent | user_simulator/simulator.py:145-181 | the whole loop keeps the invariant and only extends the dialogue. It ends normally exactly when the block index equals `len(blocks)` |
| Interview.TranscriptWindows | user_simulator/simulator.py:166-171 | the k-th respondent call saw between one and four turns, the last of them the k-th question |
| Interview.ConversationTrace | user_simulator/simulator.py:140-164 | from block 0 of a non-empty guide, the results are consumed in order. The first call sees "Hi" in block 0. Each call is made in the block reached by the `finished` outputs before it, never past the last. The loop ends normally exactly after `len(blocks)` finished signals. It raises only the ValueError or a backend exception |
| Interview.ConversationTranscript | user_simulator/simulator.py:142-179 | the dialogue alternates non-empty researcher questions and respondent answers, so its first turn is a question and never the "Hi" greeting. It has even length, and each respondent window ends with its question |
| Interview.ConverseFrom | user_simulator/simulator.py:145-161 | an iteration that continues hands the remaining results to the next pass of the loop |
| Interview.ConverseHaltsAt | user_simulator/simulator.py:158-164 | an iteration that halts ends the loop, leaving the results after it unconsumed |
| Interview.TwoBlockInterview | user_simulator/simulator.py:138-185 | a two-block guide with one question in the first block and two in the second ends normally. It holds the three exchanges in order, the first asked in block 0 and the others in block 1 |
| Simulation.ProfileAt | user_simulator/simulator.py:140 | `user_profiles[index]` succeeds exactly for `-len <= index < len` and then is the element at `index`, or at `len + index` for a negative index; otherwise it raises IndexError |
| Simulation.InitialContext | user_simulator/simulator.py:95-104 | the context succeeds exactly when the guide has blocks and the name and summary are present. It starts at the first block, carries the profile, population, title and summary, and its failures are the KeyError or IndexError the lookups raise |
| Simulation.Conversation | user_simulator/simulator.py:138-185 | `simulate_conversation` as a function: the profile lookup, the initial context and the loop's outcome; a dialogue comes back only when the profile and the context exist |
| Simulation.SimulationIdFor | user_simulator/simulator.py:27 | an absent or empty simulation id is replaced by the clock reading |
| Simulation.ConversationRecordFor | user_simulator/simulator.py:114-125 | the record stores the profile and dialogue unchanged, `total_turns == len(dialogue)`, `user_index == index`, and the study name or "Unknown Study" |
| Simulation.ConversationFilenameInjective | user_simulator/simulator.py:128-129 | two saves share a file name only when both the index and the second-resolution timestamp agree |
| Simulation.ConversationFilenameEncodesIndex | user_simulator/simulator.py:129 | the name starts with `conversation_` and the zero-padded index, which parses back to the index |
| Simulation.MakeRun | user_simulator/simulator.py:38-39 | making the run directory adds it when missing and leaves every other directory as it was |
| Simulation.Initialise | user_simulator/simulator.py:38-55 | `__init__`'s effect on the data directory: on success the study is the one named and the run's profile file holds the batch the simulator uses |
| Simulation.InitialiseReusesProfiles | user_simulator/simulator.py:49-55 | after a successful `__init__`, a second one with the same id loads the same profiles without generating any, whatever the count and draws, and changes nothing on disk |
| Simulation.InitialiseKeepsOtherFiles | user_simulator/simulator.py:38-55 | `__init__` touches only its run directory. It never changes a conversation file, and writes the profile file only with a freshly generated batch |
| Simulation.InitialiseOutcome | user_simulator/simulator.py:41-55 | a missing study raises FileNotFoundError. An existing profile file is loaded unchanged. Otherwise the batch is generated, one profile per requested user, or fails with the first user's error |
| Simulation.NewSimulator | user_simulator/simulator.py:19-55 | the constructor's effect on the data directory and its fields are those of `Initialise` |
| Simulation.ConversationOutcome | user_simulator/simulator.py:138-185 | a finished interview's dialogue alternates, and its study has a name, so the saved record never shows "Unknown Study". A failed one raised an error the source can raise, or the model's `RepliesExhausted` |
| Simulation.Simulator.SaveConversation | user_simulator/simulator.py:112-136 | the record is written under `conversation_{index:03d}_{timestamp}.json` in the run's conversations, replacing a same-named file, and nothing else changes |
| Simulation.Simulator.SimulateConversation | user_simulator/simulator.py:138-185 | the imperative loop returns exactly `Conversation(...)`. On success it saves that dialogue's record; on any error it saves nothing |
| Simulation.OneBlockFinishedAtOnce | user_simulator/simulator.py:154-159 | a one-block guide finished at once gives an empty dialogue, dropping a question that came with `finished` |
| Simulation.RespondentFailureRaises | user_simulator/simulator.py:166-176 | a respondent call that raises after the first question makes the interview fail with the backend's exception, so nothing is saved |
| Simulation.MissingQuestionRaises | user_simulator/simulator.py:163-164 | an output with neither a question nor `finished` raises the ValueError, whatever the respondent would say |
| Users.Choice | user_simulator/simulator.py:64-68 | `random.choice` returns an element of the list, or raises IndexError on an empty list |
| Users.RandInt | user_simulator/simulator.py:71 | `random.randint(low, high)` lies in `[low, high]` and fails exactly when `low > high` |
| Users.NewUser | user_simulator/simulator.py:63-87 | one user: the seed draws, the age, the backend's profile; a success carries the `"profile"` descriptor (its full contract is `NewUserShape`) |
| Users.NewUserShape | user_simulator/simulator.py:63-87 | a generated user is the backend's profile with `"profile"` set to a descriptor of table entries and an age inside the chosen range. It fails exactly on an empty list, an empty age range or a backend failure |
| Users.DescriptorStartsWithAge | user_simulator/simulator.py:84 | the descriptor begins with the age in decimal and "yo ", and the age parses back |
| Users.Batch | user_simulator/simulator.py:60-87 | the appending loop's result as a function of the users' outcomes: a success holds exactly one profile per requested user |
| Users.Generated | user_simulator/simulator.py:57-93 | `generate_users` over the draws: a success holds exactly `number_of_users` profiles |
| Users.BatchFacts | user_simulator/simulator.py:60-87 | the batch succeeds exactly when every user does, then holds one profile per user in order. Otherwise it reports the first failure |
| Users.BatchFailureSticks | user_simulator/simulator.py:61-87 | once a user has failed, later users do not change the error |
| Users.GeneratedFacts | user_simulator/simulator.py:57-93 | `generate_users` returns exactly `number_of_users` profiles, each the one its draw produced, or the first user's error |
| Users.GenerateProfiles | user_simulator/simulator.py:57-93 | the appending loop returns exactly `Generated(...)` |
| Format.Pad3 | user_simulator/simulator.py:129 | `format(i, "03d")` is at least three characters |
| Format.JoinLines | user_simulator/hooks.py:93 | `"\n".join(lines)` is empty for no lines, starts with the first line, has a newline right after it when more lines follow, and is at least `len(lines) - 1` long (the full round trip is `SplitJoinLines`) |
| Format.SplitLines | user_simulator/hooks.py:93 | `s.split("\n")` always gives at least one piece |
| Format.IntToStringRoundTrip | user_simulator/simulator.py:84 | `int(str(i)) == i` |
| Format.Pad3RoundTrip | user_simulator/simulator.py:129 | `format(i, "03d")` is at least three characters and parses back to `i` |
| Format.Pad3Injective | user_simulator/simulator.py:129 | different indexes never format alike |
| Format.SplitJoinLines | user_simulator/hooks.py:93 | `"\n".join(lines).split("\n") == lines` for newline-free lines |
| Hooks.GenerateFrictionInstruction | user_simulator/hooks.py:65-93 | the result is None exactly when neither draw fires |
| Hooks.FrictionInstructionLines | user_simulator/hooks.py:68-93 | read back line by line, the text is one or two lines. The catalogue pick comes first when drawn and the SHORT directive last when drawn; it is two lines exactly when both fire |
| Hooks.DirectiveHasNoNewline | user_simulator/hooks.py:72-85 | no catalogue entry contains a newline |
| Hooks.DirectiveNotEmpty | user_simulator/hooks.py:72-85 | no catalogue entry is empty |
| Hooks.ShortDirectiveIsFirstEntry | user_simulator/hooks.py:73-91 | the high-frequency directive is the first catalogue entry's text, so the same line can appear twice |
| Hooks.FrictionNotEmpty | user_simulator/hooks.py:65-93 | friction text, when there is any, is never empty |
| Hooks.InsertPosition | user_simulator/hooks.py:54 | `list.insert` clamps its position into the list, and a position inside the list is kept |
| Hooks.ListInsertShape | user_simulator/hooks.py:54-63 | `insert` puts the item at the clamped position and shifts the rest by one, in order |
| Hooks.InputList.Insert | user_simulator/hooks.py:54-63 | inserting in place leaves the list equal to `ListInsert` of the old list |
| Hooks.OnLlmStart | user_simulator/hooks.py:13-63 | the caller's list, changed in place, becomes `InjectedItems` of the old list |
| Hooks.InjectedItemsShape | user_simulator/hooks.py:47-63 | item 0 is the persona directive. Item 1 is the friction text exactly when a draw fired. The original items follow unchanged and in order, shifted by one or two |
| Hooks.InjectedItems | user_simulator/hooks.py:47-63 | the list after the hook is one item longer than before, or two when a friction draw fired |
| Hooks.ProfileElements | user_simulator/hooks.py:26-32 | at most three context lines, none of them empty |
| Hooks.ProfileContext | user_simulator/hooks.py:26-34 | the profile context is never empty |
| Hooks.BaseInstructionNamesStyle | user_simulator/hooks.py:36-45 | the persona directive contains `Communication style: ` with the profile's style, or "Professional" when it has none |
| Hooks.ProfileContextFallback | user_simulator/hooks.py:26-34 | the profile context is "Medical professional" exactly when none of the three keys is present |
| Hooks.ProfileContextReadsBack | user_simulator/hooks.py:26-34 | when no value holds a newline, `profile_context.split("\n")` gives back the profile lines |
| Hooks.ProfileContextLines | user_simulator/hooks.py:26-34 | the profile context has one line per key present: background first, practice setting next, communication style last. It falls back to "Medical professional" exactly when none is present, and reads back line by line when no value holds a newline |

## Left out

- The agent SDK (`Runner.run`) and the backend models are left out. Each loop iteration consumes one `Replies`
  value (the researcher's output, the respondent's answer and which call, if any, raises), and profile expansion
  is an `Option<Profile>` per user. A raising call is one `BackendError`; the exception's type and message are not
  modelled. Async/await is sequential and is not modelled.
- Interview.Iterate: when the respondent call raises, the question already appended to the local `dialogue` is
  discarded with it. Nothing is saved and the list is not returned, so the model keeps the dialogue as it was
  before the pass.
- Interview.Converse: the source loop has no turn limit and need not terminate. The model runs over a finite
  sequence of results; running out is `OutOfReplies` (error `RepliesExhausted`), a limit of the model that the
  source never raises.
- Users.GenerateProfiles: running out of draws gives `RepliesExhausted`, a limit of the model.
- Users.RandInt: the ValueError message is the one recent Python versions give for an empty range.
  Only its kind is stated in contracts.
- Simulation.Simulator.SaveConversation: it returns the file name, not the joined path; paths and
  `os.path.join` are not modelled.
- Simulation.Simulator.SaveConversation: it requires the run's directory to exist, which `__init__` guarantees in
  the source. A directory removed behind the simulator's back is not modelled.
- File contents are left out. JSON serialisation, `ensure_ascii` and `indent` are not modelled: a study file is
  the `Study` value `json.load` would return, and a saved file is its `ConversationRecord`.
- The clocks are parameters: the simulation id's fallback reading, and the two readings in `save_conversation`
  (ISO timestamp and file-name stamp).
- `print` and `tqdm` output are left out.
- Simulation.NewSimulator: the keyword defaults of `__init__` (`study="study_1"`, `number_of_users=30`,
  `user_population="pulmonologist"`) are not modelled. Every argument is passed explicitly.
- The probabilities 0.3 and 0.5 and `random.random()` are left out. The hook's draws are two booleans and a
  catalogue index. Seed draws are natural numbers reduced modulo the list length.
- user_simulator/constant.py is not part of this model. The demographic table is a `ProfileDict` parameter.
- user_simulator/simulate_profiles.py, study_designer.py, agents.py and utils.py are left out. They are network
  calls, templates and agent configuration.
- Hooks.OnLlmStart: `profile_context` is computed, as in the source, but never used. Its properties are stated
  separately in `ProfileContextLines`.
- The SDK list's item type is narrowed to `Message`. Aliasing between the hook's list and other references is
  not modelled beyond the single `InputList` object.

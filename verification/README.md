# APPAs accelerator simulator — a Dafny model

APPAs (Air Pressurized Particle Accelerator Simulator) is a small interactive C
program. It keeps one `Accelerator` record in memory. The record holds a particle
energy, a particle type and exactly eight `Component` records, and each
component holds eight numeric fields. The user types commands:

- `simulate` adds a pseudo-random offset, in hundredths, to every field of every component;
- `changeEnergy <number> <type>` overwrites the particle settings;
- `status` shows the particle settings and component 0;
- `help` lists the commands;
- `exit` ends the loop;
- any other word gets an "unknown command" line.

The model has three modules, one file each:

- `state.dfy` (`State`): the records and the record invariant `Valid`, which
  requires eight components and a particle type that fits its 50-byte buffer. It
  also holds `initAccelerator` (`Init`), `changeParticleEnergy` (`Change`) and the
  status view (`View`).
- `simulation.dfy` (`Simulation`): the random offsets and one time step. The step
  is written twice: as the function `Step`, and as the method `SimulateTimeStep`,
  which has the loop shape of the source and is proved equal to `Step`. The
  module also has `n` steps (`Steps`) and the drift bounds after `n` steps.
- `dispatcher.dfy` (`Dispatcher`): the command loop of `main` as a pure function
  `Run` over the tokens the user types, with the if-chain for one command as
  `Apply` (its effect on the record) and `Answer` (what it prints). The loop reads and executes one command at a time. Reading
  never depends on the record, so the session is also "read every command first
  (`ReadScript`), then execute them (`Execute`)". `RunReadsThenExecutes` proves
  the two agree, and the properties of whole sessions are proved on the second
  form.

Abstractions:

- Numbers are exact `real`s. An offset is the integer `rand() % k - c`, and
  `Hundredths` scales it by 1/100.
- `rand()` is injected as `rand: nat -> nat`, the value of the k-th call. The only
  property assumed of it is that it is non-negative. For non-negative operands,
  Dafny's `%` agrees with C's `%`. One step takes 64 draws, in component order and
  then in field order: component `i`, field `j` uses draw `8*i + j`.
- `scanf("%lf")` is injected as `parse: string -> Option<real>`, applied to one
  whole token.
- Properties of whole sessions count acknowledged commands (`Changed` and
  `Simulated` replies) rather than tokens: the loop prints exactly one reply for
  each command it executes.
- The source's behaviour becomes undefined in three cases:
  - a token of 50 or more characters is read into a `char[50]` buffer;
  - a number is unreadable, which leaves `newParticleEnergy` uninitialised;
  - the input ends, so `scanf` fails and the loop keeps running on an
    uninitialised buffer.

  The model stops the session in each case: `Undefined` for the first two and
  `InputExhausted` for the third. As a result, `Change` is only ever called with a
  type of fewer than 50 characters, which fits `particleType[50]` when every
  character is one byte. `Change` states this as its `requires`.

Where the source's comments and its code disagree, the model follows the code.
The comments say every field moves by "+/- 0.01". The code moves energy and beam
size by -0.02 to 0.01 (`rand() % 4 - 2`), and the other six fields by -0.05 to
0.04 (`rand() % 10 - 5`). The source has no policy for an unreadable number, so the
model treats that case as undefined behaviour.

## Model

| member | source | states |
|---|---|---|
| State.Init | main.c:30-49 | the initial record is valid, has particle energy 10.0 and type "Sand", and holds 8 components named "Component" whose 8 fields are all 0 |
| State.FieldsDetermineComponent | main.c:11-21 | a component is exactly its name and its eight numeric fields: two components that agree on these are equal |
| State.Change | main.c:67-76 | reconfiguration sets particle energy and type to exactly its arguments, leaves all components unchanged, keeps the record valid, and needs a type that fits the 50-byte buffer; the "Sand" branch adds nothing |
| State.ChangeLastWins | main.c:67-69 | two reconfigurations in a row leave only the second one's settings |
| State.ChangeToCurrentIsIdentity | main.c:67-76 | reconfiguring to the settings already in place changes nothing, including for "Sand" |
| State.View | main.c:91-102 | the status view shows the particle energy, the particle type and the eight numeric fields of component 0, in printing order |
| State.ViewDependsOnlyOnComponentZero | main.c:91-102 | two records give the same status view if and only if they agree on particle energy, particle type and the eight numeric fields of component 0 |
| State.ViewIgnoresComponentName | main.c:91-102 | renaming component 0 does not change the status view, since its name is never printed |
| Simulation.NarrowOffset | main.c:55 | the energy and beam-size offset `rand() % 4 - 2` lies in [-2, 1] for every non-negative draw |
| Simulation.WideOffset | main.c:56 | the offset `rand() % 10 - 5` of the other six fields lies in [-5, 4] for every non-negative draw |
| Simulation.Offset | main.c:55-62 | the offset of field j lies between that field's minimum and maximum offset |
| Simulation.OffsetRangeIsTight | main.c:55-62 | every value in a field's offset range comes from some draw, so the stated range is exact |
| Simulation.CommentedRangeIsExceeded | main.c:55-62 | the "+/- 0.01" of the comments is exceeded: some draws give -0.02, -0.05 and +0.04 |
| Simulation.Perturb | main.c:55-62 | perturbing a component keeps its name |
| Simulation.PerturbMovesEachField | main.c:55-62 | perturbing moves field j by the offset of draw j, in hundredths |
| Simulation.Step | main.c:52-64 | one step keeps the record valid and keeps particle energy and particle type |
| Simulation.StepKeepsNames | main.c:52-64 | one step keeps every component's name |
| Simulation.StepMovesEachFieldByItsDraw | main.c:53-62 | within a step, field j of component i moves by exactly the offset of draw 8*i+j, so each field is updated once, by its own draw |
| Simulation.StepMovesAtMost | main.c:55-62 | no step moves energy or beam size by more than 0.02, nor any other field by more than 0.05 |
| Simulation.StepReadsOnlyItsDraws | main.c:52-64 | a step uses only the first 64 draws: two draw sequences that agree on them give the same result |
| Simulation.StepCommutesWithChange | main.c:52-76 | a step and a reconfiguration touch disjoint parts of the record, so they commute |
| Simulation.PerturbInOrder | main.c:55-62 | the eight updates of one loop iteration, one `rand()` each in field order, compute `Perturb` of the next eight draws and advance the draw index by 8 |
| Simulation.SimulateTimeStep | main.c:52-64 | the loop over components computes the same record as `Step` and consumes exactly 64 draws |
| Simulation.Steps | main.c:52-64 | any number of steps keeps the record valid and keeps particle energy and particle type |
| Simulation.StepsKeepNames | main.c:52-64 | any number of steps keeps every component's name |
| Simulation.StepsDrift | main.c:55-62 | after n steps every field has moved by at least n times its minimum offset and at most n times its maximum offset, in hundredths |
| Simulation.DriftFromInit | main.c:30-64 | after n steps from initialisation, energy and beam size lie in [-0.02 n, 0.01 n] and the other fields in [-0.05 n, 0.04 n] |
| Dispatcher.Next | main.c:114-125 | reading a command always consumes input |
| Dispatcher.NextReadsOneCommand | main.c:114-145 | the command's word is the first token, which fits the buffer; `changeEnergy` takes the number read from the second token and the third token as its type; reading resumes right after the two arguments of `changeEnergy` and right after the word of any other command; unknown commands are exactly the fitting words that are not keywords; reading stops with `exit` exactly when the first token is `exit` |
| Dispatcher.DrawsAreSuccessive | main.c:53-62 | draw k of a run of draws is the value of `rand()` call `from + k` |
| Dispatcher.WindowIsNextDraws | main.c:53-62 | the draws of a step are the next 64 successive `rand()` values |
| Dispatcher.Apply | main.c:116-145 | `status`, `help` and unknown words leave the record unchanged; `simulate` is one step; only `changeEnergy` changes particle settings; only `simulate` changes components |
| Dispatcher.Answer | main.c:116-145 | the reply is the change or simulate acknowledgement exactly when the command is `changeEnergy` or `simulate`, and never the exit message |
| Dispatcher.Run | main.c:111-146 | a session keeps the record valid |
| Dispatcher.Execute | main.c:116-145 | executing commands keeps the record valid and gives exactly one reply per command |
| Dispatcher.RunReadsThenExecutes | main.c:111-146 | the interleaved loop gives the same session as reading every command first and then executing them, with the exit message appended when the session ended by `exit` |
| Dispatcher.ExecuteNeverExits | main.c:116-145 | no command other than `exit` prints the exit message |
| Dispatcher.ExecuteCountsDraws | main.c:128-130 | executing commands consumes 64 draws per `simulate` and none for any other command |
| Dispatcher.ExecuteKeepsParticle | main.c:119-145 | commands without `changeEnergy` keep particle energy and type |
| Dispatcher.ExecuteKeepsComponents | main.c:119-145 | commands without `simulate` keep every component |
| Dispatcher.ExecuteKeepsNames | main.c:116-145 | no command renames a component |
| Dispatcher.ExecuteDrift | main.c:128-130 | every field moves by at least its minimum and at most its maximum offset per executed `simulate` |
| Dispatcher.SessionReplies | main.c:111-146 | a session ends in the record and draw position its commands leave, prints exactly the replies of its commands followed by the exit message when it ended by `exit` (so it acknowledges `changeEnergy` and `simulate` exactly as often as they were executed), and ends by `exit` exactly when its last reply is the exit message |
| Dispatcher.ExitedIffLastReplyExiting | main.c:116-118 | a session ends by `exit` if and only if its last reply is the exit message |
| Dispatcher.SessionCountsDraws | main.c:111-146 | a session consumes 64 draws for every acknowledged `simulate` and no others |
| Dispatcher.SessionKeepsParticle | main.c:111-146 | a session without an acknowledged `changeEnergy` keeps particle energy and type |
| Dispatcher.SessionKeepsComponents | main.c:111-146 | a session without an acknowledged `simulate` keeps every component, and every session keeps the component names |
| Dispatcher.SessionDrift | main.c:111-146 | over a session, every field moves by at least the minimum and at most the maximum offset times the number of acknowledged `simulate` commands |
| Dispatcher.SessionDriftFromInit | main.c:104-146 | from start-up, after k acknowledged `simulate` commands, 64 k draws are used, energy and beam size lie in [-0.02 k, 0.01 k] and the other fields in [-0.05 k, 0.04 k] |
| Dispatcher.ExitTerminates | main.c:116-118 | `exit` ends the session with the record unchanged, no draw used and no further input read |
| Dispatcher.ReadOnlyCommandsKeepState | main.c:131-145 | `status`, `help` and any other fitting non-command word only print (the status report of the particle settings and the numeric fields of component 0, the command list, the unknown-command line) and the session continues from the same record and draw position |
| Dispatcher.SimulateSteps | main.c:128-130 | `simulate` applies one step to the next 64 `rand()` values and continues 64 draws further on |
| Dispatcher.ChangeEnergyReconfigures | main.c:119-127 | `changeEnergy` with a readable number and a type that fits its buffer reconfigures the record and continues after the three tokens |
| Dispatcher.ChangeEnergyUndefinedInputs | main.c:120-125 | `changeEnergy` with an unreadable number or an over-long type stops the session as undefined, and with missing arguments as out of input, leaving the record as it was |
| Dispatcher.BogusHelpExit | main.c:137-145 | the input `bogus help exit` gives the unknown-command line, the command list and a clean exit, with the record untouched |
| Dispatcher.ChangeThenStatus | main.c:119-136 | `changeEnergy 42.5 Proton` followed by `status` reports 42.5, "Proton" and the numeric fields of the untouched component 0 |

## Left out

- Console output: the prompt, the acknowledgement lines, the help text, the `%.2f` formatting of the status report and the ASCII banner `printAPPA` (main.c:79-89). Replies are modelled as abstract `Reply` values; the status reply carries the values it prints, unformatted.
- `srand(time(NULL))` and the C library's `rand()`: they read the clock and hidden library state, so they are replaced by the injected non-negative draw function `rand`.
- `scanf`'s number syntax: `parse` stands for `%lf` applied to one whole token. A token that `%lf` reads only partly (`42.5abc`), with the rest left in the stream, is not modelled.
- Tokenisation: the input is taken as already split into whitespace-free tokens, and tokens are assumed not to contain NUL characters, as C strings cannot.
- Multi-byte text: tokens are taken as sequences of single-byte characters, so "fewer than 50 characters" stands for "fits a 50-byte buffer". A token of fewer than 50 characters that needs 50 or more bytes in UTF-8 overflows the source's buffers, but the model accepts it.
- Non-finite numbers: `parse` returns a `real`, so the NaN and infinity values that `%lf` reads from "nan" or "inf" are not modelled.
- IEEE double rounding when the 0.01-scaled offsets are accumulated: fields are exact reals.
- `NUM_MAGNETS` (main.c:8): it is defined but never used.
- Behaviour after undefined behaviour: once a token overflows its 50-byte buffer, a number cannot be read, or the input ends, the source's behaviour is undefined or loops without progress. The model ends the session with `Undefined` or `InputExhausted` instead of guessing.
- State.Change: its `requires` that the type has fewer than 50 characters reflects the `strcpy` into `particleType[50]`; in the source, the unbounded `scanf("%s")` at main.c:125 does not guarantee it, and the model records that gap by stopping the session as `Undefined` instead.

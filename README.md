# ham_lora protocol engine in Dafny

A model of the contact-exchange engine of the ham_lora LoRa messenger
(`state_machine.py`), together with the menu automaton and selection cursor
of its user interface (`code.py`), with proofs of what they do.

The engine is a chain of states, each consuming one tick's input (the
buttons short-pressed, a frame the radio received) and returning the next
state. A new state runs its entry action at once. Three modes are
modelled:

- **beacon**: announce `BCN <call> <grid>`, show what is heard, and
  announce again after ten quiet ticks;
- **free**: pick one of the six messages and send it as written;
- **sequence**: the six-stage exchange `CQ` → grid → report → R-report →
  `RRR` → `73`. A stage index selects the message to send and the only
  frame shape to accept. Received frames are upper-cased and matched
  against the stage's three-token grammar of callsign, grid locator and
  signal report. The callsigns must be the expected ones, and the
  parameter table records what the peer sent.

The files, one module each:

- `text.dfy` (`Text`): the `Option` type, ASCII character classes, and
  upper-casing.
- `grammar.dfy` (`Grammar`): the callsign, grid and report token shapes and
  the six stage patterns. A frame matcher that splits at whitespace is
  proved equal to the regular language of each pattern. No frame fits two
  patterns.
- `messages.dfy` (`Messages`): message templates as literal and placeholder
  segments; rendering, which fails where `str.format` raises `KeyError`;
  the parameter table, its sentinels and the six templates.
- `protocol.dfy` (`Protocol`): everything as values:
  - what each state returns (`Dispatch`);
  - stage navigation (`Nav`);
  - what `SeqParse` accepts and binds (`ParseFrame`);
  - the whole effect of one tick on a session (`TickSpec`);
  - the lemmas about exchanges, beacon timing and full cycles.
- `engine.dfy` (`Engine`): the machine as objects updated in place:
  - `StateMachine`, holding the stage index, the parameter table and
    records of what was transmitted and displayed;
  - `WaitTimer`, the counter of a `BcnWait` state.

  `StateMachine.Tick` is proved to carry out `TickSpec` exactly.
- `mainmenu.dfy` (`MainMenu`): the classes `MainFA` and `Cursor`. Each
  method is proved against a function that states its transition.

The send button in `BcnWait` returns to `Bcn` (state_machine.py:62-63) and
does not transmit; a beacon goes out on the send button in `Bcn`
(`BeaconSendTick`).

The radio and the display are outside the model:
- A received frame is a parameter of the tick.
- Transmitted frames and display updates are appended to the sequences
  `sent` and `shown`.
- Which buttons were short-pressed in a tick is a parameter.

## Model

| member | source | states |
|---|---|---|
| `Text.Upper` | state_machine.py:138 | the result has the frame's length; each lower-case ASCII letter becomes its capital and every other character is kept |
| `Text.UpperIdempotent` | state_machine.py:138 | upper-casing an upper-cased frame changes nothing |
| `Text.UpperNoLower` | state_machine.py:138 | a frame without lower-case letters is left as it is |
| `Text.UpperConcat` | state_machine.py:138 | upper-casing distributes over concatenation |
| `Grammar.Split` | state_machine.py:128-134 | a frame splits into at least one piece and no piece contains whitespace |
| `Grammar.SplitSpaced` | state_machine.py:128-134 | the frame is exactly its pieces separated by single whitespace characters |
| `Grammar.Match` | state_machine.py:128-134 | a match yields one piece per pattern token, each fitting its token, and those pieces are the frame's split |
| `Grammar.MatchIsRegex` | state_machine.py:124-134 | the matcher accepts a frame exactly when the frame is in the anchored regular language of the pattern (tokens separated by one whitespace character) |
| `Grammar.SplitJoin` | state_machine.py:128-134 | splitting whitespace-free pieces joined by single spaces gives back the pieces |
| `Grammar.MatchJoin` | state_machine.py:128-134 | well-formed pieces joined by single spaces are matched and returned unchanged |
| `Grammar.FitsNoSpace` | state_machine.py:124-126 | no callsign, grid, report or literal word contains whitespace |
| `Grammar.FitsNoLower` | state_machine.py:124-126 | no token contains a lower-case letter |
| `Grammar.TokenExamples` | state_machine.py:124-126 | on sample tokens, the callsign, grid and report expressions accept KD1ABC, W2XYZ, 3DA0RU, FN42, FN42AB, -12 and +5, and reject CQ, 1AB, KD1AB2, F42, FN4A, 12 and +05 |
| `Grammar.StageFrameMatched` | state_machine.py:129-134 | three pieces fitting a stage's tokens, written with single spaces between them, form a frame the stage's expression matches with the pieces as its groups |
| `Grammar.PatternsSpaceFree` | state_machine.py:129-134 | each stage pattern has three tokens and its literal words are upper-case and space-free |
| `Grammar.LastTokensDisjoint` | state_machine.py:130-134 | grid, report, `R`-report, `RRR` and `73` never fit the same piece |
| `Grammar.PatternsDisjoint` | state_machine.py:129-134 | no frame matches the patterns of two different stages |
| `Messages.Render` | state_machine.py:201 | rendering succeeds exactly when every placeholder of the template is bound (otherwise `KeyError`); the empty template renders as the empty text |
| `Messages.RenderAgrees` | state_machine.py:106 | the rendered text depends only on the values of the template's own placeholders |
| `Messages.ResetPeer` | state_machine.py:205-208 | the four peer keys are bound to '{theircall}', '{theirgrid}', '{rssi}', '{rssi}' and every other key keeps its value |
| `Messages.ResetPeerIdempotent` | state_machine.py:205-208 | resetting twice is resetting once |
| `Messages.InitialParams` | state_machine.py:226-233 | the initial table binds exactly the six keys, with the configured callsign and grid and the peer sentinels, and a reset leaves it unchanged |
| `Messages.CompleteRenders` | state_machine.py:218-233 | with all six keys bound, the beacon and all six templates render without `KeyError` |
| `Messages.RenderBeacon` | state_machine.py:47-49 | the beacon is "BCN ", the callsign, a space and the grid |
| `Messages.RenderCallingExample` | state_machine.py:219 | with callsign KD1ABC and grid FN42 the calling template renders as "CQ KD1ABC FN42" |
| `Protocol.Dispatch` | state_machine.py:7-211 | the next state of every state's `__call__`: a bare `State` alone raises; `InitialState` follows the modes "beacon", "sequence" and "free" exactly and otherwise stays; `Bcn`, `Free` and `Seq` go to their send state on the send button, else to their print or parse state when a frame was received, else stay; `BcnPrnt`, `FreePrnt` and `SeqParse` go to their mode's send state on the send button and back to the listening state otherwise; `BcnSend` goes to `BcnWait`, `FreeSend` to `Free` and `SeqSend` to `Seq`; `BcnWait` goes to `Bcn` on the send button, else to `BcnPrnt` when a frame was received, else sends again when its counter reached 10, else stays; no state returns to `InitialState` or a bare `State` |
| `Protocol.Nav` | state_machine.py:74-79 | the stage index stays in range; button 0 alone steps back, wrapping 0 to the last index; button 2 alone steps forward, wrapping the last index to 0; both or neither leave it unchanged |
| `Protocol.ParseFrame` | state_machine.py:136-190 | a frame is accepted exactly when the index is a stage, the upper-cased frame matches that stage's pattern and the callsign binding holds (from stage 1 the first call is ours, from stage 2 the second is the recorded peer); with all keys bound no `KeyError`; an accepted frame writes only the stage's keys |
| `Protocol.Bind` | state_machine.py:143-186 | a matched frame is accepted exactly when the callsign binding holds; a `KeyError` names a missing `mycall` or `theircall`; an accepted frame writes only the stage's keys: the peer's call and grid at stages 0 and 1, the report at stage 2, the report after the `R` at stage 3, nothing at stage 4, the peer-key reset at stage 5 |
| `Protocol.RenderStage` | state_machine.py:218-225 | each template renders as its three pieces joined by single spaces |
| `Protocol.ParseJoined` | state_machine.py:142-186 | a frame that is a stage's well-formed pieces joined by single spaces is parsed by binding exactly those pieces |
| `Protocol.ExchangeAccepted` | state_machine.py:142-186 | the frame a peer renders for stage k is accepted at our stage k when its tokens are well formed and the two tables agree on the callsigns; it binds the peer's call and grid (stages 0-1) or its report (2-3), changes nothing (4) or resets the peer keys (5) |
| `Protocol.ParseFrameMeasured` | state_machine.py:142-154 | with a measured report, accepts exactly the frames `ParseFrame` accepts and agrees with it on every key but `theirrssi`; a stage-0 or stage-1 frame accepted with a well-formed report binds `theirrssi` to it, and every other outcome is `ParseFrame`'s |
| `Protocol.MeasuredReportAccepted` | state_machine.py:155-168 | once a side has accepted the peer's stage-0 or stage-1 frame with a measured report, its table is complete and its `theirrssi` is a report, and the stage-2 and stage-3 frames it renders are accepted by the peer at that stage, binding the report as the peer's `myrssi` |
| `Protocol.UnmeasuredReportRejected` | state_machine.py:221-222 | while `theirrssi` holds its sentinel, the frames of stages 2 and 3 are rejected by the stage they are meant for |
| `Protocol.ParseIgnoresCase` | state_machine.py:138 | parsing a frame and parsing its upper-cased form give the same outcome |
| `Protocol.ParseOnlyExpectedStage` | state_machine.py:142-186 | a frame accepted at one stage is rejected at every other stage |
| `Protocol.ParseCallingExample` | state_machine.py:143-147 | "cq w2xyz fn20" at stage 0 binds `theircall` W2XYZ and `theirgrid` FN20 |
| `Protocol.DeletePeer` | state_machine.py:182-185 | the deletions succeed exactly when all four peer keys are bound and then remove exactly them; otherwise `KeyError` for an absent peer key |
| `Protocol.ParseFrameAsWritten` | state_machine.py:176-186 | the source's parse: identical to `ParseFrame` at every stage but 5; at stage 5 it accepts the same frames and an accepted frame deletes the four peer keys from the table |
| `Protocol.DeletedPeerBreaksRender` | state_machine.py:106 | after an accepted stage-5 frame as written, the second template no longer renders (`KeyError`), while the corrected table stays complete |
| `Protocol.StageFiveExample` | state_machine.py:176-186 | for KD1ABC in contact with W2XYZ, "KD1ABC W2XYZ 73" at stage 5 is accepted, and as written the next render fails; the corrected parse resets the peer keys |
| `Protocol.StageLines` | state_machine.py:106-107 | `Seq` shows the templates from the current stage on, at most three, each rendered as its pieces joined by spaces |
| `Protocol.Parsed` | state_machine.py:188-190 | an accepted frame is shown upper-cased, its bindings are stored and the stage advances by one modulo 6; any other frame leaves the session unchanged |
| `Protocol.Sent` | state_machine.py:199-208 | the current stage's frame is transmitted and the stage advances by one modulo 6; the index wraps to 0 exactly after stage 5, and then the peer keys are reset |
| `Protocol.Entered` | state_machine.py:37-208 | constructing a state runs its entry action and changes nothing else: `BcnPrnt` and `FreePrnt` show the received frame on line 2; `BcnSend` transmits "BCN", our call and grid; `BcnWait` starts its counter at 0; `FreeSend` transmits the selected template; `SeqParse` is `Parsed` and `SeqSend` is `Sent`; every other state only becomes current; the stage index stays in range and every key stays bound |
| `Protocol.Apply` | state_machine.py:237 | a returned state replaces the current one; keeping the state or raising changes nothing |
| `Protocol.TickSpec` | state_machine.py:235-237 | one tick keeps the stage index in range and every key bound; a bare `State` leaves the session unchanged; no tick enters `InitialState` or a bare `State` |
| `Protocol.BeaconWaitCounts` | state_machine.py:60-67 | below ten, a quiet tick in `BcnWait` only adds one to the counter |
| `Protocol.BeaconWaitTiming` | state_machine.py:57-67 | from a fresh `BcnWait`, quiet ticks 1 to 9 transmit nothing and keep the state, and tick 10 transmits the beacon and enters `BcnSend` |
| `Protocol.BeaconSendTick` | state_machine.py:26-58 | in `Bcn` the send button transmits the beacon at once, and the next tick, whatever it brings, enters `BcnWait` with its counter at 0 |
| `Protocol.BeaconReceiveTick` | state_machine.py:27-43 | in `Bcn` a received frame without the send button is shown on line 2 and nothing is sent; the next tick goes back to `Bcn`, or to `BcnSend` on the send button, showing nothing more |
| `Protocol.SeqSendTick` | state_machine.py:105-109 | in `Seq` the send button transmits the current stage and advances the index by exactly one, whatever navigation button came with it |
| `Protocol.SeqNavTick` | state_machine.py:105-119 | a quiet `Seq` tick without the send button shows the lines of the stage it started at, applies navigation and changes nothing else |
| `Protocol.SeqReceiveTick` | state_machine.py:105-119 | a `Seq` tick that receives a frame without the send button applies navigation and parses the frame at the new stage, advancing it and taking the new table only when the frame is accepted, transmitting nothing |
| `Protocol.FreeTick` | state_machine.py:71-83 | in `Free` the send button transmits the selected template as written and keeps the index; otherwise navigation applies and a received frame is shown |
| `Protocol.SendsFromZero` | state_machine.py:199-208 | sending stages 0 to n-1 from stage 0 leaves the index at n and the table untouched, and records the first n stage frames |
| `Protocol.SendCycle` | state_machine.py:199-208 | a full exchange sent from stage 0 transmits the six stage frames in order and ends at stage 0 with the peer keys reset |
| `Protocol.SendCycleRepeats` | state_machine.py:199-208 | a second full exchange leaves the table as the first one left it |
| `Engine.WaitTimer.constructor` | state_machine.py:57-58 | a new `BcnWait` counter starts at 0 |
| `Engine.WaitTimer.Call` | state_machine.py:60-67 | the counter grows by exactly one per call, and the state returned is `Dispatch`'s for `BcnWait` at the new count |
| `Engine.StateMachine.constructor` | state_machine.py:215-233 | the machine starts in `InitialState` at stage 0 with the six templates, the initial table and nothing sent or shown |
| `Engine.StateMachine.Tick` | state_machine.py:235-237 | the new machine is exactly `TickSpec` of the old one; `InvalidTransition` is reported exactly for a bare `State` |
| `Engine.StateMachine.Navigate` | state_machine.py:110-115 | the stage index becomes `Nav` of the old index and nothing else changes |
| `Engine.StateMachine.EnterState` | state_machine.py:37-208 | the machine becomes `Entered` of the old one |
| `Engine.StateMachine.ParseIn` | state_machine.py:136-190 | the machine becomes `Parsed` of the old one |
| `Engine.StateMachine.BindIn` | state_machine.py:142-186 | for a matched frame, the table is updated as the stage's binding step prescribes exactly when the binding holds |
| `Engine.StateMachine.SendStage` | state_machine.py:199-208 | the machine becomes `Sent` of the old one |
| `MainMenu.Code` | code.py:47-55 | the state constants run from -1 to 7, and -1 is `INVALID` alone |
| `MainMenu.CodesDistinct` | code.py:47-55 | different states have different constants |
| `MainMenu.ModeState` | code.py:62-70 | 'beacon', 'sequence' and 'free' select `BEACON`, `SEQUENCE` and `FREE` exactly; anything else, including no mode, selects `MENU` |
| `MainMenu.SelectSpec` | code.py:76-94 | in `MENU`, index 0, 1 or 2 moves to `MENU_MODE`, `MENU_SETTINGS` or `MENU_POWER` and returns that page's three lines; in `MENU_MODE`, it moves to `BEACON`, `SEQUENCE` or `FREE` and returns nothing; anything else changes nothing and returns nothing |
| `MainMenu.SelectTwiceLeavesMenu` | code.py:76-94 | two valid selections starting from the top menu end in `BEACON`, `SEQUENCE`, `FREE`, `MENU_SETTINGS` or `MENU_POWER`, never in `MENU` or `MENU_MODE` |
| `MainMenu.MainFA.constructor` | code.py:57-60 | a new automaton is `INVALID`, with `seq_idx` 5 and an empty `theircall` |
| `MainMenu.MainFA.SetMode` | code.py:62-70 | the state becomes `ModeState` of the mode |
| `MainMenu.MainFA.OpenMenu` | code.py:72-74 | from any state, the state becomes `MENU` and the answer is ("Mode", "Settings", "Power Off") |
| `MainMenu.MainFA.Select` | code.py:76-94 | the new state and the answer are `SelectSpec` of the old state and the index |
| `MainMenu.Up` | code.py:234-239 | the cursor moves up one line, from the first line to the last |
| `MainMenu.Down` | code.py:241-246 | the cursor moves down one line, from the last line to the first |
| `MainMenu.UpDownInverse` | code.py:234-246 | up then down, or down then up, returns the cursor to where it was |
| `MainMenu.ThreeStepsCycle` | code.py:234-246 | three steps in one direction return the cursor to where it was |
| `MainMenu.Cursor.constructor` | code.py:131 | the cursor starts on the first line |
| `MainMenu.Cursor.SelectionUp` | code.py:234-239 | the cursor stays on one of the three lines; it moves up while the selector shows and stays put while it is hidden |
| `MainMenu.Cursor.SelectionDown` | code.py:241-246 | the cursor stays on one of the three lines; it moves down while the selector shows and stays put while it is hidden |
| `MainMenu.UpThenDown` | code.py:234-246 | `selection_up` followed by `selection_down` restores the cursor |

## Left out

- The radio (`radio.py`) and the display are not part of this model. A
  received frame is an input of the tick, already decoded to text.
  Transmissions and display calls are recorded in order in `sent` and
  `shown`. Reading the signal strength and `print` are left out.
- main.py (button debouncing, wall-clock long presses, the polling loop)
  is not part of this model. The short-pressed buttons of a tick are an
  input, and long presses are read by no state.
- Keyword forwarding between states is not modelled:
  - every state sees the machine's context explicitly;
  - `Seq` does not forward `radio`, `ui` or `msg_params` to the states it
    builds, and `Free` does not forward `radio` (it passes `ui` and
    `msg_params` on through its keyword arguments);
  - `Bcn` does not forward `radio` to the `BcnSend` it builds
    (state_machine.py:27-29), and neither does `BcnWait`, which calls `Bcn`
    and builds `BcnSend` (state_machine.py:64-66);
  - `StateMachine.__call__` never supplies `mode`, and its own attributes,
    which it adds to the keyword arguments, hold neither `radio` nor `ui`;
  - the mutable default tables are ignored.

  As written, several of these calls would fail on `None` or an empty
  table. The model follows the evident design instead.
- `BcnSend` reads its table from a `msg_props` argument that no caller
  passes. The model renders the beacon from the session table.
- `FreeSend` transmits a `msg` argument that no caller passes. The model
  transmits the selected template as written, placeholders included.
- `theirrssi` is never measured: the source never reads the radio's signal
  strength into the table, and measuring it would be radio I/O. The session
  model (`Parsed`, `TickSpec`, `StateMachine.ParseIn`) keeps the source's
  sentinel. The corrected parse `ParseFrameMeasured` takes the measurement
  as a parameter and is not wired into a tick. The consequence is the
  second row of "Findings".
- The `UnicodeError` branch of the frame decoding is left out, because the
  frame is already text.
- Text.Upper: does not model Unicode case mapping, because frames are
  taken to be ASCII. For the same reason `\d` in the callsign pattern is
  read as ASCII digits only, and `\s` as the six whitespace characters
  MicroPython's and CircuitPython's regular expressions accept (space, tab,
  line feed, carriage return, vertical tab, form feed); CPython's `\s`
  also accepts the separators 0x1C to 0x1F.
- Grammar.Match: does not model `$` matching before a final newline.
  Frames are matched to the end of the text.
- `RE_BCN_MSG` is compiled but used by no state, so it is not modelled.
- `str.format` is modelled only for named placeholders, which is all the
  templates use.
- MainMenu.Cursor.constructor: takes the selector's initial visibility as a
  parameter. The display library that sets it is not part of this model.

## Findings

| source | as written | input that shows it | evidently intended | confidence | as-written member | corrected member |
|---|---|---|---|---|---|---|
| state_machine.py:182-185 | an accepted `73` frame at stage 5 deletes `theircall`, `theirgrid`, `theirrssi` and `myrssi` from the table; the index wraps to 0, so the next `Seq` tick renders the second template and raises `KeyError` for `theircall` | callsign KD1ABC, grid FN42, peer W2XYZ recorded at stage 1; frame "KD1ABC W2XYZ 73" received at stage 5 | reset the four peer keys to their sentinels, as `SeqSend` does when the index wraps (state_machine.py:204-208) | high, not executed | `Protocol.StageFiveExample` | `Protocol.ParseFrame` |
| state_machine.py:221-222 | `theirrssi` is only ever bound to the sentinel `{rssi}`, at start-up and on every wrap of the stage index, and never to a measured report, so the stage-2 and stage-3 frames carry `{rssi}`, which the signal-report expression rejects; two stations running this code never get past stage 2 | KD1ABC at stage 2 with peer W2XYZ sends "W2XYZ KD1ABC {rssi}"; W2XYZ at stage 2 upper-cases it to "W2XYZ KD1ABC {RSSI}" and finds no match | bind `theirrssi` to the signal report of the peer's last frame, such as "-12", before stage 2 | high, not executed | `Protocol.UnmeasuredReportRejected` | `Protocol.MeasuredReportAccepted` |

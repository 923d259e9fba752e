# RBridge server engine in Dafny

RBridge turns an Android phone into a gesture and braille keyboard for a desktop. The phone
sends small binary messages: gestures with finger and modifier counts, a start point and a swipe
path, and six-dot braille combinations. The server (`server/src/main.rs`) decodes each message.
It looks the event up in the user's configuration and presses key shortcuts on the desktop. It
announces the name of the newly selected action whenever a "slot" ring is cycled.

This project models that engine and proves properties of the model. One module stands for each
part of the source:

- `text.dfy` (`Text`): the string helpers the engine relies on.
  - `trim`, ASCII `to_lowercase`, `split`, `lines`, decimal rendering.
- `operation.dfy` (`Operations`): `Operation::from_str`.
  - It parses shortcut text into a key shortcut, a braille mapping switch, or nothing.
  - The scheme-switch regex is replaced by an explicit matcher.
- `gesture.dfy` (`Gestures`): `Gesture::try_get_slot_operation`.
  - Start coordinates are the integer percentages the wire carries.
- `client_message.dfy` (`Wire`): `ClientMessage::from_bytes`.
  - A reference encoder is given for the round trips.
- `braille_mapping.dfy` (`BrailleMappings`): the 64-entry `BrailleMapping` table and its `.bsc` script parser.
- `braille_scheme.dfy` (`BrailleSchemes`): the `BrailleScheme` mapping stack and `BrailleSchemeManager`.
  - Both are classes, and the stack is a field changed in place.
- `config.dfy` (`Config`): actions, commands and rings, with their `finalize`.
- `slot_binding.dfy` (`Slots`): the `SlotBinding` class.
  - Its cycling (`previous_action`, `next_action`, `default_action`) and `finalize`.
- `settings.dfy` (`Linking`): command bindings, bindings, schemes and `Settings::finalize`.
  - The fixed order: actions and commands, then rings, then schemes.
- `key_executor.dfy` (`KeyExecution`): `KeyExecutor`, the five-flag modifier state machine.
  - The key-injection library is modelled as an appended log of `Down`/`Up`/`Click` events.
- `routing.dfy` (`Routing`): what routing one event should do, as functions on values.
- `executor.dfy` (`Execution`): the `Executor` class.
  - Its `process_gesture` and `process_braille` methods are proved against the `Routing` functions.

**Key executor.** The state machine is specified by `KeyExecution.Good`.
- Each modifier flag equals "the last logged event for that key was `Down`".
- Downs and ups alternate per key.

Every method keeps that invariant. `Execute` ends in the state the pure function `Executed`
computes.

**Router.** `Executor` keeps a ghost history of the executor calls it made (`KeyExecutor.calls`).
Each routing method states both the calls it made and the key executor's new state, which is
the old one with those calls replayed (`KeyExecution.Replayed`). Its methods are tied to the
`Routing` functions:
- `Gestured`: command bindings first, then every matching slot binding, with no `break`.
- `BrailleRouted`: translate first, then a switch or an execution.

## Model

| member | source | states |
|---|---|---|
| `Text.TrimStart` | server/src/main.rs:842 | the result is a suffix of the input; everything dropped is whitespace; and it does not start with whitespace |
| `Text.TrimEnd` | server/src/main.rs:842 | the result is a prefix of the input; everything dropped is whitespace; and it does not end with whitespace |
| `Text.Trim` | server/src/main.rs:842 | a trimmed text neither starts nor ends with whitespace |
| `Text.TrimKeepsUnpadded` | server/src/main.rs:842 | trimming a text without surrounding whitespace changes nothing |
| `Text.ToLower` | server/src/main.rs:842 | lowercasing keeps the length and maps every character independently |
| `Text.ToLowerKeepsLower` | server/src/main.rs:842 | a text without capitals is its own lowercase |
| `Text.Split` | server/src/main.rs:858 | `split` yields at least one piece and no piece contains the separator |
| `Text.SplitJoin` | server/src/main.rs:858 | splitting a join of separator-free pieces gives the pieces back |
| `Text.Lines` | server/src/main.rs:560 | no line that `lines` yields contains a newline |
| `Operations.LeadingAmpersands` | server/src/main.rs:815 | counts exactly the run of `&` that starts the text |
| `Operations.ParseIsSwitch` | server/src/main.rs:815-839 | `from_str` yields a scheme switch iff the raw input is longer than one character and is one or more `&`, a non-`&` character, then a newline-free rest |
| `Operations.SwitchDirective` | server/src/main.rs:820-838 | `default` gives `Default`, `return` gives `Return` (any number of `&`); any other name gives `TemporaryAppend` with one `&` and `Append` with two or more |
| `Operations.SwitchDirectiveShape` | server/src/main.rs:815-823 | the input of every scheme-switch result is n ≥ 1 ampersands followed by the switch target |
| `Operations.AppendExamples` | server/src/main.rs:828-834 | `&foo` is a temporary append of `foo` and `&&foo` an append |
| `Operations.ReturnDefaultExamples` | server/src/main.rs:825-827 | `&return` is `Return`, `&&default` is `Default` |
| `Operations.ParseShortcut` | server/src/main.rs:842-913 | for non-directives the input is trimmed and lowercased; empty gives `None`, `meta` the bare Meta key; otherwise each modifier flag is set iff its name is a component, the key is the last key component, and with no key the result is `None` |
| `Operations.CompileShortcutMeaning` | server/src/main.rs:844-913 | the same statement on already normalised text |
| `Operations.ParseNormalized` | server/src/main.rs:842 | a normalised non-directive text parses as its shortcut compilation |
| `Operations.FoldMeaning` | server/src/main.rs:851-907 | the component loop sets each flag iff its modifier name occurs and keeps the last key, whatever the starting state |
| `Operations.FoldFlag` | server/src/main.rs:861-870 | one modifier flag after the loop is its start value or the name's occurrence |
| `Operations.FoldKey` | server/src/main.rs:872-906 | the key after the loop is the last key component, or the start value when there is none |
| `Operations.LastKeyIndex` | server/src/main.rs:872-906 | the position of the last key component, or none when there is no key component |
| `Operations.ComponentKeys` | server/src/main.rs:861-905 | a component that names a key never names a modifier key |
| `Operations.ParsedKeys` | server/src/main.rs:847-910 | a parsed shortcut never has Control, Shift, Alt or CapsLock as its key, and a Meta-key shortcut has no flag set |
| `Operations.KeyNameParses` | server/src/main.rs:872-905 | every key's canonical name is read back as that key |
| `Operations.CompileShortcutIsNoSwitch` | server/src/main.rs:842-913 | the shortcut half of the parser never yields a scheme switch |
| `Operations.RenderShape` | server/src/main.rs:815-858 | a rendered shortcut is no directive, is normalised, and splits into its rendered components |
| `Operations.CompileRender` | server/src/main.rs:851-913 | compiling a rendered shortcut (other than bare Meta) gives it back |
| `Operations.ParseRender` | server/src/main.rs:811-913 | round trip: `from_str` of the rendering of any renderable shortcut is that shortcut |
| `Operations.BlankExamples` | server/src/main.rs:842-844 | empty and blank texts give `None` |
| `Operations.MetaExample` | server/src/main.rs:847-849 | `meta` gives the bare Meta key with no flag |
| `Operations.ChordExample` | server/src/main.rs:851-910 | `ctrl+shift+a` gives Ctrl+Shift+`a` |
| `Operations.SpacedComponentsSkipped` | server/src/main.rs:899-902 | a component padded with spaces is skipped |
| `Operations.SpacedShortcutIsNothing` | server/src/main.rs:858-913 | `ctrl + a` gives `None`, because components are not trimmed |
| `Gestures.SlotOperationMeaning` | server/src/main.rs:699-771 | the gesture qualifies iff it is a swipe whose directions the reference table accepts; the slot name then comes from the first direction; every other gesture gets the `Not a slot gesture` error |
| `Gestures.SlotGesturesAreShortSwipes` | server/src/main.rs:702-705 | only swipes of one to three directions qualify |
| `Gestures.TwoStrokes` | server/src/main.rs:752-758 | `[L,R]`/`[U,D]` are exactly the backward-then-back pairs and `[R,L]`/`[D,U]` the forward-then-back ones |
| `Gestures.ThreeStrokes` | server/src/main.rs:760-766 | the four default-action paths are exactly back-and-forth-and-back |
| `Gestures.SlotNameShape` | server/src/main.rs:707-742 | the slot ends in `h` or `v` by the first direction's axis; it carries a band digit iff one finger is used; and the band comes from `start_y` for horizontal and `start_x` for vertical swipes |
| `Gestures.BandBounds` | server/src/main.rs:713-721 | band 1 iff below 20 %, band 2 iff 20–80 %, band 3 iff above 80 % |
| `Gestures.SlotExample` | server/src/main.rs:711-770 | three concrete gestures classify as the code says |
| `Wire.DecodeDirectionsMeaning` | server/src/main.rs:961-971 | the direction loop succeeds iff every byte is 0–3, then keeps one direction per byte in order; otherwise it reports the first byte above 3 |
| `Wire.DecodeDirectionBytes` | server/src/main.rs:961-971 | decoding the bytes of any direction list gives the list back |
| `Wire.DecodeEncode` | server/src/main.rs:939-1010 | round trip: every encodable message decodes from its encoding |
| `Wire.EncodeDecode` | server/src/main.rs:939-1010 | round trip: every accepted byte string re-encodes to itself (taps and touches to the first six bytes) |
| `Wire.Rejections` | server/src/main.rs:940-1008 | each error path: empty, unknown tag, short gesture, swipe without directions, bad direction, unknown shape, wrong braille or input-mode length, bad input mode |
| `Wire.BrailleUnchecked` | server/src/main.rs:986-993 | a braille message carries its byte unchecked |
| `Wire.TrailingBytesIgnored` | server/src/main.rs:975-978 | bytes after a tap or touch gesture are ignored |
| `BrailleMappings.BrailleMapping.Get` | server/src/main.rs:596-599 | the entry for the combination |
| `BrailleMappings.BrailleMapping.Set` | server/src/main.rs:601-605 | one entry replaced, the name and every other entry kept |
| `BrailleMappings.Empty` | server/src/main.rs:550-552 | a new mapping has its name and no entry |
| `BrailleMappings.DotsMaskBits` | server/src/main.rs:578-586 | the folded combination has bit d−1 set iff dot digit d occurs, and no bit above the sixth |
| `BrailleMappings.DotsMaskRange` | server/src/main.rs:578-586 | a non-empty dot string folds to a combination in 1–63 |
| `BrailleMappings.SplitAssignmentMeaning` | server/src/main.rs:558-574 | a line splits into operation text and digits iff it is text, `=`, and a non-empty run of dots 1–6 |
| `BrailleMappings.LineBindingRange` | server/src/main.rs:569-586 | an assignment line binds a combination in 1–63 |
| `BrailleMappings.LastAssignment` | server/src/main.rs:561-588 | the last line that assigns a combination, or none |
| `BrailleMappings.ScriptNeverBindsZero` | server/src/main.rs:578-588 | no script binds combination 0 |
| `BrailleMappings.FromScript` | server/src/main.rs:554-594 | the loaded mapping keeps its name, and each entry is the operation of the last assignment line for that combination |
| `BrailleMappings.WrittenPatternPanics` | server/src/main.rs:558-574 | with the pattern as written, loading panics exactly when the script has an assignment line |
| `BrailleMappings.IntendedPatternLoads` | server/src/main.rs:569-588 | with the intended two-group pattern, loading never panics |
| `BrailleSchemes.SwitchKeepsValid` | server/src/main.rs:446-488 | every switch keeps the stack non-empty, its base the non-temporary default, and every layer a known mapping |
| `BrailleSchemes.SwitchAppend` | server/src/main.rs:453-472 | a known name pushes a copy flagged temporary or not; an unknown one fails with `Mapping … not found` and leaves the stack |
| `BrailleSchemes.SwitchReturn` | server/src/main.rs:473-479 | `Return` pops one layer unless only the base remains |
| `BrailleSchemes.SwitchDefault` | server/src/main.rs:480-484 | `Default` leaves exactly the base layer |
| `BrailleSchemes.ConsumedKeepsValid` | server/src/main.rs:498-501 | a lookup keeps the invariant and pops exactly a temporary top layer |
| `BrailleSchemes.LayersValid` | server/src/main.rs:446 | every layer of a valid stack is a full table |
| `BrailleSchemes.TemporaryLastsOneLookup` | server/src/main.rs:463-501 | after a temporary append, one lookup reads that mapping and restores the previous stack |
| `BrailleSchemes.BrailleScheme.constructor` | server/src/main.rs:445-448 | a new scheme's stack is the default mapping alone |
| `BrailleSchemes.BrailleScheme.SwitchMapping` | server/src/main.rs:451-488 | the new stack and the result are those of the `Switched` function; the invariant holds |
| `BrailleSchemes.BrailleScheme.TranslateCombination` | server/src/main.rs:489-504 | the result is the top layer's entry, and a temporary top layer is consumed; the empty-stack branch is dead |
| `BrailleSchemes.BrailleScheme.CurrentMappingName` | server/src/main.rs:506-508 | the name is that of one of the scheme's loaded mappings (the top layer's); with only the base layer, the default mapping's |
| `BrailleSchemes.SchemeFromFiles` | server/src/main.rs:426-449 | fails iff there is no `default` file; otherwise one mapping per file, each loaded from its script, and the default mapping is the only layer |
| `BrailleSchemes.BrailleSchemeManager.Empty` | server/src/main.rs:362-364 | a manager without schemes |
| `BrailleSchemes.BrailleSchemeManager.constructor` | server/src/main.rs:388 | a manager over loaded schemes |
| `BrailleSchemes.BrailleSchemeManager.SwitchMapping` | server/src/main.rs:391-399 | without schemes it fails with `no braille schemes`; otherwise it switches the first scheme |
| `BrailleSchemes.BrailleSchemeManager.TranslateCombination` | server/src/main.rs:400-406 | without schemes nothing is found, for any combination; otherwise the first scheme translates, keeping its name and mappings |
| `BrailleSchemes.BrailleSchemeManager.CurrentMappingName` | server/src/main.rs:408-414 | empty without schemes; otherwise the first scheme's top mapping name |
| `Config.NewAction` | server/src/main.rs:53-55 | a new action's operations are its compiled shortcuts |
| `Config.NewCommand` | server/src/main.rs:86-88 | a new command's operation is its compiled shortcut |
| `Config.FinalizeAction` | server/src/main.rs:57-62 | it compiles both shortcuts, changes nothing else, and is idempotent |
| `Config.FinalizeCommand` | server/src/main.rs:90-94 | it compiles the shortcut, changes nothing else, and is idempotent |
| `Config.FirstIndex` | server/src/main.rs:120-121 | the first position holding the id, or none iff the id does not occur |
| `Config.FindAction` | server/src/main.rs:120-130 | the scan finds an action iff the id occurs, and finds the first one |
| `Config.FinalizeRing` | server/src/main.rs:119-139 | succeeds iff every id names an action; then one copy per id, of the first such action, and nothing else changes; otherwise the error names the first missing id |
| `Config.FinalizedRingCompiled` | server/src/main.rs:119-139 | once the actions are compiled, every copy a ring takes is compiled |
| `Slots.NextPosition` | server/src/main.rs:191-198 | an empty ring does not move; otherwise the position stays in the ring |
| `Slots.PreviousPosition` | server/src/main.rs:179-190 | an empty ring does not move; otherwise the position stays in the ring |
| `Slots.NextStep` | server/src/main.rs:196-197 | `next_action` steps forward and wraps to 0 after the last action |
| `Slots.StepsUndo` | server/src/main.rs:179-198 | `previous_action` and `next_action` undo each other |
| `Slots.NextFullCircle` | server/src/main.rs:191-198 | N `next_action` steps on a ring of N return to the start |
| `Slots.PreviousFullCircle` | server/src/main.rs:179-190 | N `previous_action` steps on a ring of N return to the start |
| `Slots.EmptyRingStill` | server/src/main.rs:180-193 | on an empty ring any number of moves is a no-op |
| `Slots.SlotLinkMeaning` | server/src/main.rs:203-228 | the link is the first ring with the id and the first position of the default action in it; a missing ring and a missing default action give their two errors |
| `Slots.SlotBinding.constructor` | server/src/main.rs:168-170 | a new binding keeps its fields, sits at 0 and holds the unknown ring |
| `Slots.SlotBinding.ActiveAction` | server/src/main.rs:172-178 | none iff the ring copy is empty, else the action at the position |
| `Slots.SlotBinding.PreviousAction` | server/src/main.rs:179-190 | the position moves back with wrap-around; the ring and default are kept |
| `Slots.SlotBinding.NextAction` | server/src/main.rs:191-198 | the position moves forward with wrap-around; the ring and default are kept |
| `Slots.SlotBinding.DefaultAction` | server/src/main.rs:199-201 | the position returns to the default position |
| `Slots.SlotBinding.Finalize` | server/src/main.rs:203-228 | succeeds iff the ring and its default action are found; then the copy, default position and position are set and the active action is the default; on a missing default the ring copy is still taken |
| `Linking.NamedDirections` | server/src/main.rs:265-271 | a direction text contributes at most one direction |
| `Linking.UnknownDirectionSkipped` | server/src/main.rs:270 | an unknown direction text drops out without a trace |
| `Linking.AllDirectionsKnown` | server/src/main.rs:262-274 | when every text names a direction, each is kept in its place |
| `Linking.FinalizeCommandBinding` | server/src/main.rs:259-289 | succeeds iff the command id is found, then links the first such command; the shape is set even when it fails |
| `Linking.FinalizeSlots` | server/src/main.rs:312-314 | succeeds iff every slot binding links, then all are finalized; otherwise it reports the first failure |
| `Linking.FinalizeCommandBindings` | server/src/main.rs:315-317 | succeeds iff every command binding links, then each is linked; otherwise it reports the first missing command |
| `Linking.FinalizeBindings` | server/src/main.rs:311-320 | slot bindings first, then command bindings; success iff all link; the first error otherwise |
| `Linking.FinalizeScheme` | server/src/main.rs:343-347 | a scheme finalizes as its bindings and keeps its id and name |
| `Linking.FirstMissingActionUnique` | server/src/main.rs:119-139 | the ring loop's error is determined: two errors that both meet `FirstMissingAction` are equal |
| `Linking.FirstBindingErrorUnique` | server/src/main.rs:311-320 | a binding list's first error is determined by the bindings, commands and rings |
| `Linking.FirstSchemeErrorUnique` | server/src/main.rs:666-668 | the scheme loop's error is determined by the schemes, commands and rings |
| `Linking.FinalizedValid` | server/src/main.rs:203-228 | a finalized slot binding over linked rings is valid and its active action is its default action |
| `Linking.CompilingKeepsIds` | server/src/main.rs:657-662 | compiling actions and commands keeps every id |
| `Linking.LinkingKeepsSlotLinks` | server/src/main.rs:663-668 | linking the rings does not change how any slot binding links |
| `Linking.FinalizedSlotsReady` | server/src/main.rs:656-669 | after finalize every slot binding is valid, sits on its default action, and holds only compiled actions |
| `Linking.Settings.constructor` | server/src/main.rs:638-642 | new settings keep their lists and have an empty braille manager |
| `Linking.Settings.FinalizeActions` | server/src/main.rs:657-659 | every action compiled in place, nothing else changed |
| `Linking.Settings.FinalizeCommands` | server/src/main.rs:660-662 | every command compiled in place, nothing else changed |
| `Linking.Settings.LinkRings` | server/src/main.rs:663-665 | succeeds iff every ring links; then each ring is linked; otherwise the error is `FirstMissingAction`: every earlier ring links, and it names the first missing id of the first ring that does not |
| `Linking.Settings.LinkSchemes` | server/src/main.rs:666-668 | succeeds iff every scheme links; then each is finalized; otherwise the error is `FirstSchemeError`: every earlier scheme links, and it is the first binding error of the first scheme that does not |
| `Linking.Settings.CompileAndLinkRings` | server/src/main.rs:656-665 | the first three loops; the rings link iff they did against the uncompiled actions, a failure is the first missing action of the uncompiled ids, and whether the schemes link is unchanged |
| `Linking.Settings.Finalize` | server/src/main.rs:656-673 | succeeds iff rings and schemes link and the braille load succeeds; otherwise the error of the first failing stage, pinned to its first failing ring (`FirstMissingAction`) or scheme (`FirstSchemeError`); after success everything is compiled and linked and the braille manager is the loaded one |
| `KeyExecution.InitialGood` | server/src/main.rs:1025-1027 | the initial executor (no key held, empty log, object id −1) satisfies the invariant |
| `KeyExecution.ApplyGood` | server/src/main.rs:1061-1121 | every guarded down or up keeps the invariant and only appends to the log |
| `KeyExecution.RunGood` | server/src/main.rs:1029-1121 | any sequence of those steps keeps the invariant and only appends |
| `KeyExecution.PressFlags` | server/src/main.rs:1037-1041 | after the presses a flag is held iff it was held or the shortcut asks for it |
| `KeyExecution.ReleaseFlags` | server/src/main.rs:1045-1049 | after the releases meta and caps lock are up and ctrl/shift/alt are held only if sticky and held |
| `KeyExecution.ReleasedAllUp` | server/src/main.rs:1053-1059 | releasing the modifiers leaves none held |
| `KeyExecution.ShortcutRun` | server/src/main.rs:1037-1049 | a shortcut is its presses, exactly one click of its key, then its releases |
| `KeyExecution.ExecutedFlags` | server/src/main.rs:1030-1050 | after a shortcut the object id is recorded, meta and caps lock are up, and each of ctrl/shift/alt is held iff sticky and (asked for or still held from the same object) |
| `KeyExecution.ExecutedGood` | server/src/main.rs:1029-1051 | `execute` keeps the invariant, only appends to the log, and clicks exactly the shortcut's key (nothing for other operations) |
| `KeyExecution.NonShortcutChangesNothing` | server/src/main.rs:1030 | a non-shortcut operation changes neither the state nor the log |
| `KeyExecution.KeyExecutor.constructor` | server/src/main.rs:1025-1027 | a new executor is in the initial state with no calls |
| `KeyExecution.KeyExecutor.Press` | server/src/main.rs:1061-1090 | a down is logged only when the flag was up, and the flag is then set |
| `KeyExecution.KeyExecutor.Release` | server/src/main.rs:1092-1121 | an up is logged only when the flag was down, and the flag is then cleared |
| `KeyExecution.KeyExecutor.ReleaseModifiers` | server/src/main.rs:1053-1059 | all five modifiers released in order |
| `KeyExecution.KeyExecutor.PressNamed` | server/src/main.rs:1037-1041 | presses the shortcut's modifiers in order |
| `KeyExecution.KeyExecutor.ReleaseUnlessSticky` | server/src/main.rs:1045-1049 | releases the non-sticky modifiers, then meta and caps lock |
| `KeyExecution.KeyExecutor.RunShortcut` | server/src/main.rs:1031-1049 | a new object id releases everything first; then the shortcut's steps |
| `KeyExecution.KeyExecutor.Execute` | server/src/main.rs:1029-1051 | the new state is `Executed` of the old one, the invariant is kept, and the call is recorded |
| `KeyExecution.ReplayedGood` | server/src/main.rs:1029-1121 | any sequence of executor calls keeps the invariant and only appends to the log |
| `Routing.Moved` | server/src/main.rs:1164-1182 | a cycling operation changes only the position and keeps it in the ring |
| `Routing.SlotEffect` | server/src/main.rs:1153-1182 | one matching slot binding changes only its position and adds at most one call or one announcement |
| `Routing.RouteOne` | server/src/main.rs:1152-1153 | a binding changes at most its position |
| `Routing.RouteSlots` | server/src/main.rs:1151-1184 | the slot loop keeps one view per binding |
| `Routing.FirstCommand` | server/src/main.rs:1139-1141 | the first command binding matching shape, finger and modifier counts, or none iff none matches |
| `Routing.Gestured` | server/src/main.rs:1135-1185 | routing a gesture keeps one view per slot binding |
| `Routing.RouteSlotsMoves` | server/src/main.rs:1151-1184 | every matching slot binding is moved, with no `break`, and every other binding is unchanged |
| `Routing.RouteSlotsEffects` | server/src/main.rs:1151-1184 | the calls are the swipes of the matching bindings in order, and the feedback is their announcements in order |
| `Routing.SwipeKeepsCursors` | server/src/main.rs:1154-1163 | `Forward`/`Backward` move no cursor and announce nothing |
| `Routing.MoveCallsNothing` | server/src/main.rs:1164-1182 | cycling operations execute nothing |
| `Routing.CommandsFirst` | server/src/main.rs:1139-1146 | when some command binding matches, the first one executes with its command's id and flags, and nothing else happens |
| `Routing.UnroutedIgnored` | server/src/main.rs:1139-1150 | a gesture matching no command binding and no slot gesture does nothing |
| `Routing.BrailleRoutedMeaning` | server/src/main.rs:1187-1204 | a scheme switch sends exactly one message and executes nothing; otherwise the lookup is consumed; other operations execute with id −combination and no sticky flag; a missing entry does nothing |
| `Execution.MatchCommand` | server/src/main.rs:1139-1146 | the scan finds the first matching command binding |
| `Execution.Perform` | server/src/main.rs:1143 | one `execute` call of the router (here the command branch's; the slot and braille branches make the same call): it is recorded and the key executor's new state is `Performed` of the old one |
| `Execution.ApplyToBinding` | server/src/main.rs:1153-1182 | one binding: the new cursor, the calls and the announcements are those of `SlotEffect`, and the key executor's new state is the old one with those calls replayed |
| `Execution.Visit` | server/src/main.rs:1152-1183 | one iteration of the slot loop extends the calls and announcements by the binding's own, and the key executor goes through exactly those calls |
| `Execution.VisitFrom` | server/src/main.rs:1152-1183 | after the iteration the key executor's state is the loop's start state with the calls so far replayed |
| `Routing.ReplayedPrefixStep` | server/src/main.rs:1152-1183 | one more binding of the slot loop takes the key executor through that binding's swipe call, if it matches |
| `Execution.RouteSlotOperation` | server/src/main.rs:1151-1184 | the whole slot loop: each binding's new cursor, the calls and the announcements match the reference functions, and the key executor's new state is the old one with `SwipeCalls` replayed |
| `Execution.Executor.constructor` | server/src/main.rs:1131-1133 | a new executor over the settings, with a fresh key executor in the initial state |
| `Execution.Executor.ProcessGesture` | server/src/main.rs:1135-1185 | the new cursors, the calls made, the key executor's new state (those calls replayed on the old one) and the feedback are those `Gestured` computes from the old state |
| `Execution.Executor.SwitchAndAnnounce` | server/src/main.rs:1190-1197 | the stack is switched, the scheme keeps its name and mappings, and the error or the new mapping name is sent |
| `Execution.Executor.ProcessBraille` | server/src/main.rs:1187-1204 | without braille schemes nothing happens, for any combination; otherwise the scheme keeps its name and mappings, and the new stack, the calls made, the key executor's new state (those calls replayed on the old one) and the feedback are those `BrailleRouted` computes |

## Left out

- Network and concurrency: `main`, `communication_thread`, `execution_thread`, the tokio channels and the WebSocket handling (server/src/main.rs:1210-1284). The broadcast sender is modelled as the appended `feedback` sequence.
- Key injection: `enigo` is a foreign library. Its calls are an appended log of `Down`/`Up`/`Click` events. The executor's ghost `calls` history and the ghost slot views are specification devices.
- File and JSON loading: `Settings::from_json`, `BrailleSchemeManager::from_directory`, `load_bsc_files` and the directory read inside `Settings::finalize`.
  - `Linking.Settings.Finalize` takes the braille loading result as a parameter.
  - `BrailleSchemes.SchemeFromFiles` takes the files as a map from name to text.
  - `BrailleSchemes.BrailleSchemeManager.constructor` takes the loaded schemes.
- The `regex` and `lazy_static` crates: replaced by explicit string predicates.
- Gesture coordinates: `f32` coordinates are integer percentages 0–255, as carried by the wire.
- `get_host` (environment and URL parsing), the `eprintln!` warnings and the empty `process_input_mode`.
- Unicode lowercasing: `to_lowercase` is modelled on ASCII letters; `trim` uses the Unicode White_Space list.
- Linking.Settings.Finalize: on failure only the error is stated, not the partly compiled and linked state that the early return leaves behind.
- Execution.Executor.ProcessGesture: requires at least one scheme, because the source panics by indexing `schemes[0]`.
- Execution.Executor.ProcessGesture: requires that the slot bindings of the active scheme are distinct objects. In the source they are distinct `Vec` elements.
- Execution.Executor.ProcessGesture: the executor holds the first scheme's slot bindings as captured at construction, and `Valid` keeps them equal to the settings'.
- `BrailleMappings.BrailleMapping.Get`, `BrailleMappings.BrailleMapping.Set` require a combination below 64; `BrailleSchemes.BrailleSchemeManager.TranslateCombination` and `Execution.Executor.ProcessBraille` require it only when a braille scheme is loaded.
  - The source asserts `combination <= 64`, then indexes a 64-entry table, so 64 panics as well.
  - Without schemes, `translate_combination` returns before the table is reached, so any byte is accepted.
  - The wire carries any byte.

## Findings

| source | as written | input that shows it | evidently intended | confidence | as-written member | corrected member |
|---|---|---|---|---|---|---|
| server/src/main.rs:558 | the assignment pattern `^.*=([1-6]+)$` has one capture group, but lines 573-574 unwrap groups 1 and 2; group 2 does not exist, so `unwrap` panics | any script with an assignment line, such as `ctrl+a=1` | `^(.*)=([1-6]+)$`: the operation text before the last `=` and the dots after it | not executed | `BrailleMappings.WrittenPatternPanics` | `BrailleMappings.IntendedPatternLoads`, `BrailleMappings.FromScript` |

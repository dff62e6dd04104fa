# Lightserver `play.py`, modelled in Dafny

`play.py` drives Bluetooth lightbulbs of two kinds, Playbulbs and Milights.
A `LightManager` holds the device list, the colour vector of the next
request, a FIFO queue of vectors, a lock with a starvation counter and a
time gate. A `LightServer` reads length-framed payloads from a socket. A
payload can be a state query, a streaming command (one colour for one device
or one group) or a JSON light-change request, which is sanitised, screened
and turned into a vector for the manager.

The model keeps the program's own structure:

- `wire.dfy` (module `Wire`): bytes and Python's `& 0xff`, `^` and `+`;
  `hex()`/`zfill` rendering and `bytearray.fromhex`; `int()` on a string;
  the integer a colour token gives when spliced into an `eval`ed list
  literal; the 4-digit `'%04d'` frame header and what `recv` reads back.
- `json.dfy` (module `Json`): the JSON values a request carries, Python's
  truthiness, and `len()` on them.
- `milight.dfy` (module `MilightCodec`): `get_query`'s plaintext layout, the
  four presets and `_create_command`'s obfuscation, checksum and hex
  rendering, with a decoder proving every plaintext byte is recoverable.
- `bulb.dfy` (module `Bulbs`): the class `Bulb` (mutable `success`,
  `priority`, `state`, connection) with `color`, `_write`, `turn_on` and the
  other Milight helpers as methods. Each method is proved against a value
  function (`ColorSpec`, `WriteSpec`, `TurnOnThenSpec`), and the decision
  lists are proved as lemmas on those functions.
- `sweep.dfy` (module `Sweeping`): value functions for the unthreaded sweep
  of `_set_lights` (passes, re-sweeps, the queue) and for
  `set_light_stream`'s retry loop, and the lemmas about them.
- `manager.dfy` (module `Manager`): the class `LightManager`. Its loops are
  methods with invariants, each proved against the `Sweeping` functions.
  The vector carries a flag saying whether it is a `str`, which a string
  hexvalues leaves there and on which item and slice assignment raise.
  Beside it are value definitions of the vector builders and the time gate.
- `server.dfy` (module `Server`): `_sanitize`, the screening and vector
  building of `_validate_and_execute_req`, and the `listen_client` loop.
  The loop is a method over the manager, proved against `Plan`, a function
  from the received byte stream to the commands the connection issues, and
  against `Replay`, which carries those commands out on a value copy of the
  manager (`Snap`: device states, vector, queue, lock, counter, time
  settings, priority) through `Execute`, `Validated` and `Manager.Ran`.

Outside influences are parameters:

- Every BLE write consumes a `Radio(connects, sends)`. Every call of `color`
  consumes the next `Air` of an oracle `air: nat -> Air`, indexed by a
  running call count `k`.
- The clock is the time of day `now`.
- `json.loads` is a function `parse`.

A Python exception that escapes is modelled explicitly: a `Crash` reply, a
`crashed` result, or a `Raised` verdict, with the state it leaves behind.

## Model

| member | source | states |
|---|---|---|
| `Wire.XorCancel` | play.py:860-861 | xoring a byte with the key twice gives the byte back, so the obfuscation can be undone |
| `Wire.HexPair` | play.py:866-868 | a byte renders as exactly two lowercase hex digits whose value is the byte |
| `Wire.FromHexString` | play.py:835-837 | the rendered command is valid input for `bytearray.fromhex`, which returns the original bytes |
| `Wire.FromHexSpaces` | play.py:718 | `bytearray.fromhex` skips ASCII whitespace before each pair: " " is no bytes, "ff ff ff" three, "\tab\n" one; a space inside a pair, or an odd digit, raises |
| `Wire.DecimalLiteralExamples` | play.py:853 | a colour token spliced into the list literal gives its integer ("5", "-12"); a leading zero, a hex token or nothing raises |
| `Wire.DecimalRoundTrip` | play.py:853 | every integer, written in decimal with an optional minus sign, evaluates back to itself as a list element |
| `Wire.HeaderValue` | play.py:960 | the `'%04d'` header of a size below 10000 reads back as that size |
| `Wire.UnframeFrame` | play.py:92-97 | a header plus a payload of that size reads back as exactly that payload, with the rest of the stream left over |
| `Wire.UnframeShort` | play.py:92-97 | a size at least as large as what remains (the JSON client's fixed "1024") takes the whole rest of the stream |
| `Wire.FramesFrame` | play.py:91-97 | the first frame of a stream is read before the frames after it |
| `Wire.FramesFrameAll` | play.py:91-97 | the loop reads back every framed payload of a transmission, in order, then goes on with whatever follows |
| `Json.AsTokens` | play.py:191 | `len()` is defined exactly on lists and strings (null, booleans and integers raise); a list gives its items and a string its characters, one token each; where defined, the value is truthy iff it has elements |
| `MilightCodec.Query` | play.py:816-818 | the plaintext is [value1, value2, id1, id2, value5, value3, value4, value6, 0, 0, 0] |
| `MilightCodec.PresetLayouts` | play.py:748-768 | `turn_on` (32, 161, 1), `turn_off` (32, 161, 2), set-colour (45, 161, 4, colour, 2, 50) and dim-on (20, 161, 5, 200, 4, 50) give these exact plaintexts, each with a byte key |
| `MilightCodec.CreateCommand` | play.py:852-870 | the accumulator loop and the comprehensions compute exactly `Command`: key, ten obfuscated bytes, checksum, rendered in hex |
| `MilightCodec.CommandShape` | play.py:860-870 | a command is 24 lowercase hex digits; pair 0 is the key; pair i (1..10) is ((entry i & 0xff) ^ key) + offset i, mod 256; pair 11 is the checksum |
| `MilightCodec.DecodeCommand` | play.py:852-870 | decoding a command gives back the low byte of every plaintext entry, and its checksum is accepted |
| `MilightCodec.CommandInjective` | play.py:852-870 | two plaintexts give the same command iff their low bytes agree |
| `Bulbs.Initial` | play.py:604-615 | a new device is unsuccessful, unconnected and at priority 0; its state is "00000000" for a Playbulb (line 647) and "0" for a Milight (line 746) |
| `Bulbs.ConvertIdempotent` | play.py:650-656 | `convert` leaves every token other than "0" and "1" alone, the Milight's leaves all tokens alone (lines 770-773), and converting twice is converting once unless the configured intensity is itself "0" or "1" |
| `Bulbs.WriteSpec` | play.py:692-736 | a write never raises: a missing connection or a failing write is answered False |
| `Bulbs.WriteChangesOnlyOnSend` | play.py:692-736 | a write changes the state only when it sends something, and then to the token |
| `Bulbs.ColourQuery` | play.py:756-759 | the set-colour plaintext can be built exactly when the token is an integer literal; it is then a valid plaintext whose colour byte is that integer |
| `Bulbs.TurnOnThenChangesOnlyOnSend` | play.py:756-764 | turn-on followed by a second write changes the state only when something was sent, and then to "1" or the token |
| `Bulbs.UnhandledIgnored` | play.py:658-662 | a token of unhandled format (Playbulb: not of length 1 or 8 and not "-1"; Milight: longer than 3, line 777) is answered True and nothing changes |
| `Bulbs.SucceededIgnored` | play.py:663-664 | a device whose success flag is set answers True and nothing changes |
| `Bulbs.SkipMarksSuccess` | play.py:665-667 | "-1" sets success and leaves state and priority alone |
| `Bulbs.OutrankedMarksSuccess` | play.py:668-672 | a device held at a higher priority sets success and keeps state and priority |
| `Bulbs.PriorityAdoption` | play.py:673-676 | the stored priority changes exactly for requests that pass the earlier checks, and then to the request's priority (3 stored as 1) |
| `Bulbs.MilightAdoptionSurvivesWrites` | play.py:790-808 | an admitted Milight request keeps the adopted priority whatever its writes do |
| `Bulbs.TurnOnThenKeepsPriority` | play.py:756-764 | the Milight helpers never touch the priority |
| `Bulbs.StreamLowersPriority` | play.py:673-674 | a streaming request (priority 3) against a device held at 2 or 3 is admitted and lowers its priority to 1 |
| `Bulbs.PlaybulbAlreadyThere` | play.py:677-681 | a Playbulb already showing the token (other than its off code) succeeds without a write |
| `Bulbs.PlaybulbWrites` | play.py:682-684 | otherwise the answer is True iff a connection exists or is made, the token is valid `fromhex` input (ASCII whitespace allowed between pairs) and the write goes through; then the state is the token and the token's bytes went out; on False the state and success flag are kept and the device is disconnected |
| `Bulbs.PlaybulbNeverZero` | play.py:658-736 | a Playbulb never reaches state "0", because a one-character token is never valid hex |
| `Bulbs.MilightOffAlwaysWrites` | play.py:794-796 | "0" always sends the turn-off command, even when the state is already "0", and nothing else; True iff the write goes through |
| `Bulbs.MilightOnSequence` | play.py:802-805 | with a working radio, "1" sends turn-on and then dim-on, in that order, and ends in state "1" with success set |
| `Bulbs.MilightHalfDone` | play.py:806-808 | when turn-on goes through but the colour write fails, the answer is False, yet the state is "1", success is set and only turn-on went out |
| `Bulbs.MilightBadColourCrashes` | play.py:806-819 | a colour token that is not an integer literal raises iff the turn-on went through first, leaving state "1" and success set |
| `Bulbs.ColorInvariants` | play.py:658-850 | success is never cleared; a True answer for a handled token means success; a False answer leaves the device disconnected; only a Milight raises |
| `Bulbs.StateChangesOnlyByWrite` | play.py:658-850 | the state changes only when something was sent, and only to the token or to "1" |
| `Bulbs.Bulb.constructor` | play.py:604-615 | a new device's state is `Initial` of its kind, with nothing written |
| `Bulbs.Bulb.Reinit` | play.py:617-619 | `reinit` clears success only; the priority persists |
| `Bulbs.Bulb.Disconnect` | play.py:625-638 | the connection is dropped and nothing else changes; no exception escapes |
| `Bulbs.Bulb.Connect` | play.py:35-50 | the wrapper connects only when not connected; a failed attempt leaves the device unconnected |
| `Bulbs.Bulb.PlaybulbWrite` | play.py:691-736 | the new state, the answer and the bytes written are those of `WriteSpec` for the token's hex bytes |
| `Bulbs.Bulb.MilightWrite` | play.py:827-850 | the same for the command `_create_command` builds from the plaintext; the bytes written are the command's bytes |
| `Bulbs.Bulb.TurnOn` | play.py:748-750 | the write of the turn-on preset for state "1" |
| `Bulbs.Bulb.TurnOff` | play.py:752-754 | the write of the turn-off preset for state "0" |
| `Bulbs.Bulb.DimOn` | play.py:766-768 | the write of the dim-on preset |
| `Bulbs.Bulb.TurnOnAndDimOn` | play.py:761-764 | turn-on, then dim-on only when turn-on answered True |
| `Bulbs.Bulb.TurnOnAndSetColor` | play.py:756-759 | turn-on, then the colour write only when turn-on answered True; building the colour command may raise |
| `Bulbs.Bulb.Color` | play.py:658-808 | the whole decision list of either kind: new state, answer and bytes written are those of `ColorSpec` |
| `Sweeping.ReinitAll` | play.py:473-478 | every device has its success flag cleared and all else kept |
| `Sweeping.VisitOne` | play.py:500-517 | in a pass, device i is called only when its success flag is clear, which uses one oracle position; no other device changes |
| `Sweeping.PassBounds` | play.py:500-518 | within a pass, every call goes to a device from i on and uses one oracle position |
| `Sweeping.PassesBounds` | play.py:500-542 | at most five passes; every call goes to a device index and uses one oracle position |
| `Sweeping.PassSparesSucceeded` | play.py:500-518 | within a pass, a device whose success flag is set is neither called nor changed |
| `Sweeping.PassesSpareSucceeded` | play.py:500-542 | across the passes, a device whose success flag is set is neither called nor changed |
| `Sweeping.SweepsKeepSuccess` | play.py:500-542 | success flags set before the passes are still set after them |
| `Sweeping.PassesStopSettled` | play.py:520-542 | without an exception the vector covered every device, and the passes stop before the fifth only when no device is off target (raw token differs from the state, or both are the device's off code) |
| `Sweeping.ShortVectorCrashes` | play.py:500-502 | a vector shorter than the device list raises IndexError in the pass, and no device at or past its length is called |
| `Sweeping.ShortVectorSweepCrashes` | play.py:500-502 | so such a vector raises in its first pass |
| `Sweeping.DrainFifo` | play.py:487-492 | vectors are taken first in, first out; all are taken unless an exception stopped the loop, and then the rest stays queued |
| `Sweeping.Attempts` | play.py:452-470 | the retry loop makes at most four calls; it stops early only on a True answer or an exception; each call uses one oracle position |
| `Sweeping.AttemptsStopAtDone` | play.py:464-468 | a device that answers True at once is called exactly once |
| `Sweeping.PyIndex` | play.py:467 | `devices[index]` is defined exactly for -n <= index < n, and a negative index counts from the end |
| `Sweeping.StreamDeviceFinding` | play.py:461-463 | as written, streaming "1" to device 0 (an idle Milight with a working radio) raises before reaching it, while the intended version turns it on |
| `Sweeping.StreamGroupStaysInGroup` | play.py:449-460 | a group stream changes only devices of that group |
| `Sweeping.StreamDeviceTouchesTarget` | play.py:461-470 | a device stream changes only the addressed device, and an index out of range raises without changing anything |
| `Manager.DefaultWindow` | play.py:564-572 | with the 18:00 start (line 335), exactly the times strictly between 06:00 and 18:00 are refused; a pending skip, or no start time, always passes |
| `Manager.FirstIn` | play.py:579-582 | the first index is a device of the kind, with none of that kind before it, or the end of the list when there is none |
| `Manager.FamilyAfterFirst` | play.py:574-587 | the first index plus the count stays within the device list |
| `Manager.TypeIndex` | play.py:574-587 | `_get_type_index` raises exactly when no device is of the kind; otherwise it gives the count and the first index of the kind |
| `Manager.SpliceInRange` | play.py:395 | an in-range slice assignment of matching length overwrites exactly that window |
| `Manager.SplicePastEnd` | play.py:395 | a slice that starts past the end appends instead |
| `Manager.TypedColors` | play.py:388-395 | `set_typed_colors` raises exactly when no device is of the kind, the value has no length, or the counts match while the vector is a `str` (slice assignment on a str); it changes nothing on a count mismatch, and the vector stays a list or a str as it was |
| `Manager.TypedColorsWindow` | play.py:388-395 | otherwise, on a vector with one entry per device, it changes exactly the entries from the first device of the kind for the kind's count, there to the given values in order |
| `Manager.GroupMasked` | play.py:365-376 | the vector keeps its length; an entry changes only to "-1" and only for an excluded device; every excluded entry becomes "-1" |
| `Manager.GroupMask` | play.py:365-376 | on a `str` vector the mask raises iff some device is excluded, and the vector is unchanged; on a list it is `GroupMasked`, raising iff an excluded device lies past the end |
| `Manager.ToggleOf` | play.py:378-386 | all "1" when every state is "0", otherwise all "0" |
| `Manager.ToggleWithPlaybulb` | play.py:378-386 | with a Playbulb present (its state is never "0"), a toggle always turns everything off |
| `Manager.LightManager.GetState` | play.py:438-445 | one entry per device, each that device's state |
| `Manager.LightManager.constructor` | play.py:334-345 | every entry "0", an empty queue, unlocked, counter 0, no pending skip, start 18:00, priority 0 |
| `Manager.LightManager.SetColors` | play.py:361-363 | the vector is replaced and is a `str` exactly when the value given is one; nothing else changes |
| `Manager.LightManager.SetLock` | play.py:434-436 | the lock is set; nothing else changes |
| `Manager.LightManager.SkipTime` | play.py:352-359 | server-wide drops the start time; otherwise only the next check is skipped |
| `Manager.LightManager.CheckTime` | play.py:564-572 | the verdict is `TimeGate` of the old skip flag, the start time and `now`, and a pending skip is used up |
| `Manager.LightManager.GetTypeIndex` | play.py:574-587 | the counting loop returns `TypeIndex` |
| `Manager.LightManager.SetTypedColors` | play.py:388-395 | the new vector, whether it is a `str`, and the exception are those of `TypedColors`; nothing else changes |
| `Manager.LightManager.GetGroup` | play.py:365-376 | the new vector and the exception are those of `GroupMask` over the devices' exclusions: a `str` raises at its first excluded device, a list is masked; nothing else changes |
| `Manager.LightManager.Toggle` | play.py:378-386 | returns `ToggleOf` of the device states |
| `Manager.LightManager.Reinit` | play.py:473-478 | every success flag is cleared; the states are unchanged |
| `Manager.LightManager.ResweepNeeded` | play.py:534-539 | the off-target test after a pass is `NeedsResweep` |
| `Manager.LightManager.Visit` | play.py:517 | one `color` call on device i: only that device changes, as `ColorSpec` says |
| `Manager.LightManager.Turn` | play.py:501-518 | device i's turn in a pass is `VisitOne` |
| `Manager.LightManager.RunPass` | play.py:496-518 | one pass over the devices is `Pass`: it stops at the last device or at an exception, a too-short vector included |
| `Manager.LightManager.PassAndCheck` | play.py:500-542 | one pass plus the off-target check is one step of `Passes`: it stops after an exception, a settled vector or the fifth pass, and otherwise the remaining passes go on from the new states |
| `Manager.LightManager.SweepVector` | play.py:496-542 | the passes over one vector are `Sweeps` |
| `Manager.LightManager.Serve` | play.py:489-542 | one queued vector: success flags cleared unless it is the first, then its passes |
| `Manager.LightManager.DrainQueue` | play.py:486-546 | the queue loop is `Drain`: first in, first out, stopped by an exception |
| `Manager.LightManager.SetLights` | play.py:480-562 | the queue is drained as `Drain` says; afterwards every success flag is cleared, the lock released and the counter 0; colours, priority and time settings are unchanged |
| `Manager.LightManager.Release` | play.py:558-560 | the final `set_lock(0)`: unlocked, refusal counter 0, the unserved vectors left in the queue; colours, priority and time settings unchanged |
| `Manager.LightManager.Run` | play.py:397-406 | the new state of the manager and its devices is `Ran` of the old one |
| `Manager.RunEnqueues` | play.py:397-406 | in `Ran`, a request that fails the time gate changes nothing; one queued while locked with the counter below 2 joins the back of the queue and the counter grows; otherwise the queue plus the vector is served first in, first out, what is left stays queued, the lock is released, the counter is 0 and every success flag is cleared |
| `Manager.LightManager.StreamOnce` | play.py:464-470 | one `color(token, 3)` call of the retry loop is one step of `Attempts` |
| `Manager.LightManager.StreamTo` | play.py:452-470 | the retry loop on one device is `Attempts`, and no other device changes |
| `Manager.LightManager.StreamToGroup` | play.py:449-460 | the group branch is `StreamGroup` |
| `Manager.LightManager.SetLightStream` | play.py:447-471 | `Stream` with the single-device branch corrected, then `reinit` unless an exception escaped |
| `Manager.LightManager.SetLightStreamAsWritten` | play.py:447-471 | the same with the single-device branch as written, which always raises |
| `Server.Unquote` | play.py:274 | the result holds no quote, only characters of the input, and is no longer than it |
| `Server.UnquotePlain` | play.py:274 | a string without quotes is unchanged |
| `Server.UnquoteAppend` | play.py:274 | `replace("'", "")` works piece by piece: unquoting a concatenation concatenates the unquoted parts |
| `Server.UnquoteChar` | play.py:274 | a quote character is dropped and any other character kept, so with `UnquoteAppend` every non-quote character stays, in order |
| `Server.Split` | play.py:274 | `split(',')` gives at least one piece, and no piece holds a comma |
| `Server.JoinSplit` | play.py:274 | joining the pieces with commas gives the string back |
| `Server.SplitJoin` | play.py:274 | splitting the comma-join of comma-free pieces gives the pieces back |
| `Server.Get` | play.py:240-271 | a present key keeps its value; a missing key gets the default |
| `Server.SplitValue` | play.py:272-277 | a string becomes a list of at least one comma-free piece whose comma-join is the string with its quotes removed; any other value is unchanged |
| `Server.Sanitize` | play.py:239-278 | afterwards the priority is never null, and playbulb and milight are never strings |
| `Server.SanitizePriority` | play.py:264-267 | the priority becomes 1 when missing or null, and is kept otherwise |
| `Server.SanitizeSplits` | play.py:272-274 | a string playbulb value becomes comma-free pieces that join back to the string without its quotes |
| `Server.SanitizeJoined` | play.py:275-277 | a comma-join of comma- and quote-free pieces comes back as those pieces |
| `Server.PriorityOf` | play.py:209-210 | only a number or a boolean is a priority `color` can compare (True is 1) |
| `Server.RefusedExactly` | play.py:180-197 | refused iff mixed hex and typed colours, TV on and off together, or a wrong hex count with no excusing flag; `len()` raises iff the first two rules pass and hexvalues has no length |
| `Server.AcceptedMeans` | play.py:180-210 | an accepted request breaks no rule, asks for neither TV on nor restart, and has a length and a usable priority |
| `Server.EmptyRequest` | play.py:191-197 | an empty request is refused on length unless there are no devices |
| `Server.OnRequest` | play.py:191-197 | a bare "on" request is accepted whatever the device count |
| `Server.HexWins` | play.py:211-214 | truthy hexvalues take precedence over every other colour source, and a string is kept as a `str` |
| `Server.ToggleWins` | play.py:215-230 | without hexvalues, a toggle overrides on, off and the typed values, and leaves a list |
| `Server.OnOverridesOff` | play.py:222-227 | without hexvalues or toggle, "on" asks every device for "1", whatever "off" says, and leaves a list |
| `Server.BuildKeepsLength` | play.py:215-230 | without hexvalues, the vector keeps one entry per device |
| `Server.TextRefusesMask` | play.py:365-376 | a string hexvalues with a group is kept as a `str`, so the group mask raises iff some device is excluded |
| `Server.TextRefusesTyped` | play.py:388-395 | a `str` vector left by an earlier request makes a typed request of matching count raise, changing nothing |
| `Server.ApplyTyped` | play.py:216-221 | the typed requests on the manager are `Typed`: playbulb then milight, each of which may raise; the queue, lock and time settings are unchanged |
| `Server.ApplyFlags` | play.py:222-230 | off, on and toggle on the manager are `Flagged`, and any of them leaves a list |
| `Server.BuildColors` | play.py:211-230 | the vector on the manager, whether it is a `str`, and the exception are those of `Build` |
| `Server.Prepare` | play.py:209-234 | the priority is adopted, the vector is built (a string hexvalues stays a `str`), the time check is skipped for notime or off unless building raised, and the group mask applied, stopping at the first exception; queue, lock and start time are unchanged |
| `Server.ValidateAndExecute` | play.py:180-237 | the verdict is `Screen`, and the new state of the manager and its devices is `Validated` of the old one: a screened-out request changes nothing, an accepted one is `Readied`, then `run` unless preparing it raised |
| `Server.Validated` | play.py:180-237 | a screened-out request leaves the state unchanged and raises only when `len()` does; the device count and the 0..2 range of the counter are kept |
| `Server.Readied` | play.py:209-234 | preparing an accepted request changes only the vector, its `str` flag, the priority and the skip flag: devices, queue, lock, counter and start time are kept |
| `Server.DispatchShape` | play.py:98-144 | a payload that continues the loop issues at most a stream command; only a state reply or a request is issued as the loop ends; from reachable flags an integer id is never streamed to a group |
| `Server.PlanShape` | play.py:91-144 | a session ends on its state reply or request iff that is its last command, and every earlier command is a stream command |
| `Server.PlanCoherent` | play.py:117-136 | from a fresh connection, no stream goes to a group named by an integer |
| `Server.StreamRun` | play.py:117-136 | once the target is set, each colour payload is one stream command to it, in order |
| `Server.StreamStep` | play.py:117-136 | with the target set, a colour payload is streamed to it and the flags stay |
| `Server.DeviceStreamSession` | play.py:103-126 | "stream", an index, colours, "nostream" streams each colour to that device, then ends |
| `Server.GroupStreamSession` | play.py:107-136 | "streamgroup", a name, colours, "nostream" streams each colour to that group, then ends |
| `Server.EmptyPayloadsIgnored` | play.py:98 | empty payloads change neither the flags nor the commands |
| `Server.PlanFramed` | play.py:91-97 | a framed transmission is planned from exactly its payloads |
| `Server.RequestSession` | play.py:137-144 | the JSON client's connection (a "1024" header, then a shorter request) is one request and nothing else |
| `Server.Handle` | play.py:98-144 | one loop iteration takes the branch `Dispatch` names; it replies iff the payload was "getstate", with the device states; the manager and its devices end as `Execute` of the command it issues leaves them, and are unchanged when it issues none; a device stream is carried out by the corrected `SetLightStream` (the as-written branch, which always raises, is `Manager.LightManager.SetLightStreamAsWritten`) |
| `Server.Execute` | play.py:98-144 | any command but a request leaves everything except the device states as it was; the counter stays in 0..2; a stream command is the corrected `Stream`, not the as-written one |
| `Server.ReplayAppend` | play.py:90-153 | replaying two runs of commands is replaying the first and then, unless it raised, the second |
| `Server.ReplayOne` | play.py:98-144 | one command replays as that command |
| `Server.ReportsOnly` | play.py:99-102 | state replies alone change nothing |
| `Server.QuietConnection` | play.py:90-153 | a connection that streams no colour and sends no request leaves the manager and its devices as they were, so only the `finally` block acts |
| `Server.RequestConnection` | play.py:137-144 | the JSON client's connection ends in the state `_validate_and_execute_req` leaves for its sanitised request |
| `Server.ReadFrame` | play.py:92-97 | the two `recv` calls give the next frame of `Frames` and a shorter rest |
| `Server.Converse` | play.py:90-153 | the loop carries out a prefix of `Plan`, all of it unless a command raised, and then the last one carried out was not a state reply; it replies iff the plan ends in a state reply and nothing raised; the manager and its devices end as `Replay` of the plan leaves them |
| `Server.Pass` | play.py:91-144 | one iteration: either the loop goes on with a shorter stream and the plan still splits into the commands issued and those planned from the rest, or it stops as `Ended` says; the commands issued replay to the new state |
| `Server.Serve` | play.py:98-144 | the loop body carries out its command as one more step of the replay |
| `Server.Carried` | play.py:98-144 | the command a pass issues, carried out after commands that did not raise, extends their replay by that command |
| `Server.Advance` | play.py:98-144 | after one payload, the plan is the commands issued so far, this payload's, then those planned from the new flags and the frames left |
| `Server.ListenClient` | play.py:85-162 | the loop, then `finally`: the manager and its devices are `Replay` of the plan with the lock released and every success flag cleared; the reply is the device states |

## Left out

- `server.py` is an HTTP relay that calls an external client; it is not part of this model.
- BLE transport: the `Peripheral` connection, characteristic writes and `disconnect`'s exceptions are the `Radio`/`Air` oracle. The commented-out fade code in `Playbulb._write` (lines 696-712) is dropped.
- Concurrency: the threaded branch of `_set_lights` (`ThreadPool`, `apply_async`, `get(5)`), per-client threads, the `sched` idle-disconnect timer, the SIGTERM handler and the scheduler calls of `listen_client` (lines 93-95, 159-162), `start_threaded` (lines 347-350) and the startup and shutdown of `LightServer.__init__`, `listen`, `disconnect_devices` and `remove_server` (lines 61-83, 164-178). Without threads, nothing observes `locked` between `set_lock(1)` and the final `set_lock(0)` in `_set_lights`.
- Sockets and the command-line client under `__main__` (lines 873-992). Only the header/payload relation is kept, as `Frame`. The client's own deviations are out of scope: it sends the device index, not the payload length, as a header (line 941), and always sends "1024" before JSON (line 988).
- Partial reads: each `recv` is taken to return all it asks for, or whatever is left at the end of the stream. A header cut short by the end of the stream ends the loop; at that point the source could read at most one more empty payload.
- `int()` on a header or device id accepts a sign and decimal digits only; Python also accepts surrounding whitespace and underscores between digits.
- Bulbs.ColourQuery: the Milight colour token is `eval`ed inside a list literal; only an optional minus sign and a decimal literal are modelled as integers. Other expressions Python would evaluate (such as "+5", "(5)", "~5", "1_0" or "5,6") are modelled as raising.
- MilightCodec.CreateCommand: requires the first plaintext entry to be a byte, as it is for all four presets (32, 45, 20); the `eval` of the list text is replaced by the integer list itself.
- `eval(atype)` in `_get_type_index` is the `Family` enumeration; unknown device types in the configuration (skipped by the constructor) are not modelled, and the device list is a constructor parameter instead of `play.ini`.
- The clock: `datetime.now().time()` is the parameter `now` (microseconds after midnight); `time.sleep` is dropped.
- Logging, journaling (`debugger`, `enable_journaling`, `descriptions`) and `_set_tv`'s shell commands are left out. A TV verdict only records which early return was taken; a `tvoff` request drops the shell call and goes on to set the lights, as the source does.
- JSON: `json.loads` is the parameter `parse`. Values are null, booleans, integers, strings and lists of strings; floats, nested objects and lists of other values are not modelled. The "getstate" reply is the list of states, not Python's `str()` of it.
- Server.ValidateAndExecute: a truthy priority that is a string or a list is the `Unsupported` verdict, which changes nothing. The source stores it in `lm.priority`, and a later comparison in `color` then raises inside `_set_lights` for that request and every following one until a numeric priority replaces it.
- List aliasing: the source queues `self.colors` itself, so a later in-place `get_group` or slice assignment can alter an already queued vector; the model queues vectors as values.
- The byte stream is taken to be ASCII: header sizes and payloads are counted in characters, and the `decode('utf-8')` of each payload is the identity. A payload holding multi-byte UTF-8 characters would be cut at a different place, and one that is not valid UTF-8 would raise in `decode`.
- The inner `finally` of `_set_lights` reads `colors` before it is bound when the queue starts empty; that exception is caught by the outer handler and has no effect, so it is not modelled.

## Findings

| source | as written | input that shows it | evidently intended | confidence | as-written member | corrected member |
|---|---|---|---|---|---|---|
| play.py:461-463 | the single-device branch of `set_light_stream` converts the colour with `device`, a name bound only by the group branch's loop, so it raises UnboundLocalError before any device is called | a connection sending "stream", "0", "1" to a server whose device 0 is an idle Milight with a working radio | convert with and call `self.devices[devid]`, the device the branch addresses | high (not executed) | `Sweeping.StreamAsWritten`, with `Sweeping.StreamDeviceFinding` | `Sweeping.Stream`, with `Sweeping.StreamDeviceTouchesTarget`; used by `Manager.LightManager.SetLightStream` |

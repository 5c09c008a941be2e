# OpenRailsLink TrackIR, switch panel and bindings core in Dafny

OpenRailsLink connects a head tracker (TrackIR), a Saitek switch panel and
joysticks to the Open Rails train simulator. This project models its core and
proves properties of the model.

**TrackIR scanner** (`trackir_scanner.py`): a worker process that looks for the
camera structures in the game's memory.
- It compiles a Cheat-Engine style byte signature ("AOB") into a pattern and a mask.
- It walks the game's memory regions. It reads the committed, private, writable
  ones of at most 150 MiB, and counts the huge writable ones it skips.
- It matches the signature with a pre-filter on the byte at offset 11.
- It keeps matches whose radius float (at offset `0x34`) lies strictly inside a
  threshold.
- It announces each candidate on standard output as a `FOUND_ADDRESS:` line.
- It picks the camera by type: the highest address for the cab, the
  second-highest for the interior, the lowest for the external view.

**TrackIR writer** (`trackir_integration.py`): a worker process that writes the
tracker's pose into the camera structure found.
- It writes yaw and pitch, scaled by 16383 and clamped to the configured limits.
- When enabled, it also writes a translation relative to a baseline read once.
- It picks up new addresses from an update file.
- It disarms itself after every failed write.
- It checks its parent process on every 100th iteration.

**Main window** (`OpenRailsLink.py`):
- It reads the workers' output lines into per-camera address lists, with no
  duplicates.
- It sends new addresses to a running writer, and starts the writer on the
  first cab address.
- It rotates a list for "try next address" and switches addresses by hand.
- It clears everything when the game exits.
- It enables the writer buttons.
- It drives stepped sliders (reverser, gear, headlights) one click per step,
  returning a released 3-way switch to neutral.

**Switch panel** (`hid_manager.py`): it decodes the panel's HID reports into
ON/OFF events.

**Bindings editor** (`controls.py`):
- It captures joystick and panel inputs into the bindings table.
- It deletes bindings, with its clean-up rules.
- It formats binding labels and manages the Bind buttons' listening mode.

**How it is written.** The imperative parts are classes whose methods are
proved against specification functions on their state: `CameraScanner`,
`SimpleTrackIRWriter`, `TrackIRPanel`, `StepBindings`, `PanelManager` and
`BindingsEditor`. Each method's `ensures` ties its new state (or result) to the
function. The properties of those functions are lemmas.

**What stands in for the outside world:**
- Game memory is a map from addresses to values, plus the set of writable
  addresses; reads of bytes and floats are function parameters.
- The tracker's samples, the existence of files and processes, and the
  administrator check are inputs.
- The files and processes the window creates are recorded as a list of
  effects.

**Python text functions.** `split`, `strip`, `int(x, base)`, `hex`, `upper`,
`lower` and `capitalize` are modelled in module `PyText` on ASCII text, with
Python's rules for `int`:
- surrounding whitespace is allowed;
- an optional sign;
- an optional `0x` prefix in base 16;
- a single `_` between digits (and one after `0x`) is accepted; `__` and a
  leading or trailing `_` are not.

**Modules:**

| file | module | what |
|---|---|---|
| common.dfy | Common | `Option`, `byte`, real helpers |
| pytext.dfy | PyText | the Python string and integer functions used |
| aob.dfy | Aob | the signature compiler |
| scanner.dfy | Scanner | pattern matching, region walk, radius filter, announcements, `CameraScanner` |
| selection.dfy | Selection | the selection strategy per camera type |
| writer.dfy | Writer | configuration, offsets, one loop iteration, start-up, `SimpleTrackIRWriter` |
| controller.dfy | Controller | the main window's TrackIR bookkeeping and the line protocol between the processes |
| stepped.dfy | SteppedControls | stepped sliders |
| saitek.dfy | Saitek | the switch panel's mapping and event decoding |
| controls.dfy | Controls | the bindings editor and the joystick events |

**Two behaviours of the source that the model shows:**
- **The manual switch never reaches the writer.** `switch_camera_address` writes
  the manual switch to `trackir_manual_switch_<pid>.dat` (OpenRailsLink.py:854).
  The writer only polls `trackir_address_update_<pid>.dat`
  (trackir_integration.py:190). With a writer running, both "try next address"
  and a manual switch only produce a file nobody reads.
  `Controller.ManualSwitchNotPolled` states that the two names differ.
- **A wildcard at offset 11 loses matches.** The pre-filter only lets positions
  with `0x40` at offset 11 through, whatever the signature says there. The
  scanner is started with the configured signature (OpenRailsLink.py:1753),
  whose default in the settings dialog (OpenRailsLink.py:258) has `40` at that
  offset, so this costs nothing once that default is saved
  (`Scanner.PrefilterComplete`). A camera with no saved signature is started
  with the empty string, which compiles to an empty pattern: every buffer then
  ends in the `IndexError` path (`Scanner.MatchSpecProperties`), so that camera
  finds nothing. A signature with `??` there loses real matches
  (`Scanner.WildcardSignatureMisses`). The per-camera signatures of
  OpenRailsLink.py:427-430 are of that kind, but they are never passed to the
  scanner.

## Model

| member | source | states |
|---|---|---|
| Aob.CompileToken | trackir_scanner.py:30-41 | a token compiles to a mask bit of 0 or 1, and a wildcard always carries pattern byte 0 |
| Aob.CompileOne | trackir_scanner.py:30-41 | `??` is a wildcard; a checked byte is exactly the token's value in base 16, from a token that is not `??` |
| Aob.CompileAob | trackir_scanner.py:21-44 | pattern and mask have one entry per whitespace-separated token, each compiled by the per-token rule, and every mask entry is 0 or 1 |
| Aob.CompileAllAt | trackir_scanner.py:26-44 | entry k of the compiled pair is the compilation of token k |
| Aob.TwoHexParses | trackir_scanner.py:36 | a byte written as two hexadecimal digits parses back to that byte |
| Aob.CompileTokenOf | trackir_scanner.py:30-41 | the two-digit token of a byte compiles to (byte, 1), and `??` to (0, 0) |
| Aob.CompileRender | trackir_scanner.py:21-44 | round trip: rendering a signature as text and compiling it gives back each entry, byte or wildcard |
| Aob.OutOfRangeTokenIsWildcard | trackir_scanner.py:35-41 | a hexadecimal token above 0xFF (`100`) is treated as a wildcard |
| Aob.BadHexTokenIsWildcard | trackir_scanner.py:35-41 | a token that is not hexadecimal (`4G`) is treated as a wildcard |
| Scanner.CameraScanner.constructor | trackir_scanner.py:47-56 | the camera type is upper-cased, the threshold kept, and the signature compiled token by token |
| Scanner.CameraScanner.MatchesAt | trackir_scanner.py:85-93 | the inner loop reports a match iff every checked position holds the pattern byte |
| Scanner.CameraScanner.SignaturePass | trackir_scanner.py:69-82 | the first pass collects, in order, exactly the positions with `0x40` at offset 11, and fails with `IndexError` iff the pattern is 11 bytes or shorter |
| Scanner.CameraScanner.ConfirmPass | trackir_scanner.py:84-97 | the second pass keeps, in order, the signature positions where the masked check passes, as addresses |
| Scanner.CameraScanner.FindPatternInBuffer | trackir_scanner.py:58-97 | the result is the matcher's specification: no matches for a short buffer, otherwise the ascending hit addresses, or the `IndexError` |
| Scanner.SignaturePositions | trackir_scanner.py:75-78 | every collected position lies inside the scanned range |
| Scanner.ConfirmSignatures | trackir_scanner.py:74-97 | the two passes together find exactly the positions that pass the pre-filter and the masked check |
| Scanner.HitsMembers | trackir_scanner.py:58-97 | an address is reported iff it is base plus a hit position inside the buffer |
| Scanner.HitsIncreasing | trackir_scanner.py:76-96 | the reported addresses are strictly increasing |
| Scanner.MatchSpecProperties | trackir_scanner.py:62-97 | a short buffer gives no matches; the `IndexError` happens iff the pattern is too short for offset 11; every reported address is a hit |
| Scanner.PrefilterComplete | trackir_scanner.py:69-95 | when the signature checks `0x40` at offset 11, every masked match is reported |
| Scanner.WildcardSignatureMisses | trackir_scanner.py:74-82 | when the signature has a wildcard at offset 11, a buffer that matches it need not be reported |
| Scanner.SkippedRegions | trackir_scanner.py:138-145 | a region is scanned iff it is committed, private, writable and at most 150 MiB; it is counted as skipped iff it is committed, writable and larger; never both |
| Scanner.CountScanned | trackir_scanner.py:145-146 | the scanned count never exceeds the number of regions |
| Scanner.CountScannedMeans | trackir_scanner.py:145-146 | the scanned count is the number of regions of the walk that pass the region test |
| Scanner.CountSkipped | trackir_scanner.py:181-182 | the skipped count never exceeds the number of regions |
| Scanner.CountSkippedMeans | trackir_scanner.py:181-182 | the skipped count is the number of regions of the walk that the `elif` branch counts |
| Scanner.CountsDisjoint | trackir_scanner.py:145-182 | scanned plus skipped never exceeds the regions walked |
| Scanner.RadiusFilterMembers | trackir_scanner.py:160-177 | a match is kept iff its radius float reads and its absolute value is below the threshold |
| Scanner.RadiusFilterKeepsOrder | trackir_scanner.py:160-168 | the radius filter keeps the matches' order |
| Scanner.CandidateMembers | trackir_scanner.py:133-182 | a candidate is exactly a radius-approved raw match of some region of the walk |
| Scanner.RegionMatchesSound | trackir_scanner.py:145-157 | a raw match comes only from a scanned region whose read succeeded, at a hit position of its bytes |
| Scanner.CameraScanner.ScanRegion | trackir_scanner.py:155-177 | one scanned region contributes its raw matches that pass the radius test, in order |
| Scanner.Announcements | trackir_scanner.py:214-215 | one announcement line per candidate |
| Scanner.AnnouncementsAt | trackir_scanner.py:172 | line k announces candidate k as `FOUND_ADDRESS: <TYPE>: <hex>` |
| Scanner.AnnouncementsConcat | trackir_scanner.py:172 | the lines announced during the walk are the concatenation of each region's lines |
| Scanner.CameraScanner.SmartScan | trackir_scanner.py:113-217 | the candidates, the scanned and skipped counts, and the output: every candidate announced when found and again at the end |
| Scanner.CameraScanner.ChooseTarget | trackir_scanner.py:253-298 | the selection is the strategy for the scanner's camera type |
| Scanner.CameraScanner.ScanForAddress | trackir_scanner.py:219-315 | the target is the strategy applied to the candidates; on success the target is announced once more after them |
| Selection.Max | trackir_scanner.py:259 | `max` returns a member that no candidate exceeds |
| Selection.Sort | trackir_scanner.py:269 | `sorted` returns an ascending list of the same length |
| Selection.SortPermutes | trackir_scanner.py:269 | `sorted` returns a permutation of the candidates |
| Selection.Insert | trackir_scanner.py:269 | inserting into a sorted list keeps it sorted, one longer |
| Selection.InsertPermutes | trackir_scanner.py:269 | insertion adds exactly the element inserted |
| Selection.CountsOfSort | trackir_scanner.py:269-270 | sorting keeps how many candidates lie above (or at least at) any address |
| Selection.SortedSecondToLast | trackir_scanner.py:270 | in a sorted list the second-to-last entry has at most one entry above it and at least two at or above it |
| Selection.NoCandidatesFails | trackir_scanner.py:232-235 | no candidates: no address |
| Selection.UnknownTypeFails | trackir_scanner.py:253-315 | a camera type other than CAB, INTERIOR or EXTERNAL selects nothing |
| Selection.CabPick | trackir_scanner.py:255-259 | CAB picks `max`, and 0 counts as failure |
| Selection.InteriorPick | trackir_scanner.py:268-270 | INTERIOR with two or more picks `sorted[-2]`, and 0 counts as failure |
| Selection.ExternalPick | trackir_scanner.py:285-287 | EXTERNAL with two or more picks `sorted[0]`, and 0 counts as failure |
| Selection.CabTakesHighest | trackir_scanner.py:255-262 | CAB's pick is a candidate that no other exceeds, and without 0 among them it succeeds |
| Selection.ExternalTakesLowest | trackir_scanner.py:282-297 | EXTERNAL's pick is a candidate that no other undercuts, and without 0 among them it succeeds |
| Selection.InteriorTakesSecondHighest | trackir_scanner.py:264-280 | INTERIOR's pick is a candidate with at most one candidate above it and at least two at or above it |
| Selection.SoleCandidate | trackir_scanner.py:274-275 | a single non-zero candidate is selected by every camera type |
| Selection.ThreeCandidateExample | trackir_scanner.py:255-297 | of 0x200, 0x100 and 0x300, CAB takes 0x300, INTERIOR 0x200 and EXTERNAL 0x100 |
| Writer.ClampBounds | trackir_integration.py:224-225 | a clamped value lies inside the limits, and a value inside is unchanged |
| Writer.AnglesBounded | trackir_integration.py:222-225 | the yaw and pitch written never exceed their limits, whatever the tracker reports |
| Writer.FullScaleReachesLimit | trackir_integration.py:222-223 | full deflection (16383) maps onto the limit, yaw inverted and pitch not; zero maps to zero |
| Writer.ForwardOffsetSum | trackir_integration.py:252 | a `a+b` forward offset is the sum of the two hexadecimal parts, or nothing if either fails |
| Writer.SumValuesPair | trackir_integration.py:252 | the sum of two parsed parts, failing if either fails |
| Writer.HexValuesPair | trackir_integration.py:252 | each part is parsed in base 16 on its own |
| Writer.DefaultSettings | trackir_integration.py:216-254 | an empty configuration gives limits 2.7 and 1.5, rotation offsets 0xC and 0, translation off, adds 0.6, 0.5 and 0.6, and offsets 0x6c, 0x68 and 0x64 |
| Writer.DefaultRotationOffsets | trackir_integration.py:218-219 | the default rotation offsets parse to 0xC and 0 |
| Writer.DefaultTranslationOffsets | trackir_integration.py:247-254 | the default translation offsets parse to 0x6c, 0x68 and 0x64 |
| Writer.DefaultForwardOffset | trackir_integration.py:247-252 | the default forward offset `6c` parses to 0x6c |
| Writer.DefaultUpDownOffset | trackir_integration.py:248-253 | the default up/down offset `68` parses to 0x68 |
| Writer.DefaultLeftRightOffset | trackir_integration.py:249-254 | the default left/right offset `64` parses to 0x64 |
| Writer.UpdateRearms | trackir_integration.py:189-202 | an update file holding `<camera>:<hex address>` arms the writer at that address and forgets the baseline |
| Writer.StripUpdateLine | trackir_integration.py:194 | stripping the update line drops only its newline |
| Writer.TargetAfterColon | trackir_integration.py:196-198 | the target is the text after the first `:`, parsed in base 16 |
| Writer.AfterColon | trackir_integration.py:197 | `split(':', 1)[1]` of `<camera>:<rest>` is the rest, for a camera without `:` |
| Writer.HexNoSpaceNoColon | trackir_integration.py:202 | `hex` output has no whitespace and no `:` |
| Writer.MalformedUpdateIgnored | trackir_integration.py:196-204 | an update without `:`, or whose address does not parse, changes nothing |
| Writer.UnarmedWritesNothing | trackir_integration.py:206-209 | without an address (after the update) an iteration writes nothing and keeps the counter |
| Writer.NoSampleWritesNothing | trackir_integration.py:212-214 | without a tracker sample nothing is written, and only the update changes address and baseline |
| Writer.RotationWriteFailureResets | trackir_integration.py:228-239 | a failed rotation write disarms the writer and forgets the baseline, writing nothing |
| Writer.MotionCompletesOrResets | trackir_integration.py:228-284 | every sample either completes with the address kept or disarms with the baseline forgotten; the counter does not move |
| Writer.BaselineCapture | trackir_integration.py:260-270 | the baseline is read only while there is none, from the three targets, and becomes (0, 0, 0) when a read fails |
| Writer.TranslationFromBaseline | trackir_integration.py:272-276 | once captured, each translation target receives baseline plus the sample's delta, whatever memory held before |
| Writer.TranslationFrame | trackir_integration.py:272-276 | the translation step leaves every cell other than its three targets as it was |
| Writer.CompletedMotionAngles | trackir_integration.py:222-239 | after a completed motion step the rotation cells hold the scaled yaw and pitch of the sample, when the rotation offsets differ and no translation target overwrites them |
| Writer.RotationOnlyByDefault | trackir_integration.py:242 | without `enable_camera_movement` only the two rotation cells change |
| Writer.ParentCheckEvery100 | trackir_integration.py:296-305 | the counter stays below 100, and the parent ends the loop exactly on the 100th iteration when it is dead |
| Writer.ExitsFirst | trackir_integration.py:175-187 | the game ending and the shutdown flag end the iteration before anything else happens |
| Writer.InitialAddressArgument | trackir_integration.py:345-352 | the initial address is the active camera's argument, and none when that argument is "0" |
| Writer.StartupAddress | trackir_integration.py:345-352 | whichever of `cab`, `external` and `interior` is active, a `hex()` address passed in that camera's argument starts the writer armed there (parsed as at trackir_integration.py:130) |
| Writer.ConfigFallback | trackir_integration.py:343 | the active camera's settings, else the cab's, else empty |
| Writer.GameMemory.ReadFloat | trackir_integration.py:263-265 | a read succeeds exactly at the addresses memory holds |
| Writer.GameMemory.WriteFloat | trackir_integration.py:229-230 | a write succeeds exactly at writable addresses and changes only that cell |
| Writer.SimpleTrackIRWriter.constructor | trackir_integration.py:127-146 | the address parsed from the argument (none for "", "0" or no argument), no baseline, running |
| Writer.SimpleTrackIRWriter.Reset | trackir_integration.py:234-237 | the writer is disarmed, with the baseline forgotten |
| Writer.SimpleTrackIRWriter.CheckUpdate | trackir_integration.py:189-204 | the update file step, as the update specification says |
| Writer.SimpleTrackIRWriter.SetTarget | trackir_integration.py:198-201 | a parsed target re-arms the writer and forgets the baseline |
| Writer.SimpleTrackIRWriter.CaptureBaseline | trackir_integration.py:261-270 | the baseline becomes the three reads, or (0, 0, 0) if any fails |
| Writer.SimpleTrackIRWriter.WriteTranslation | trackir_integration.py:242-284 | the translation step's state, memory and outcome are the translation specification's |
| Writer.SimpleTrackIRWriter.WriteMotion | trackir_integration.py:215-284 | the rotation-and-translation step's state, memory and outcome are the motion specification's |
| Writer.SimpleTrackIRWriter.Cycle | trackir_integration.py:173-320 | one pass of the run loop: state, memory and exit are those of the iteration specification |
| Controller.CameraNamed | OpenRailsLink.py:1943 | a key names a camera iff it is that camera's key |
| Controller.ScannerStep | OpenRailsLink.py:1935-1946 | a scanner event keeps a list for every camera |
| Controller.AddressLineParses | OpenRailsLink.py:1939-1942 | a `FOUND_ADDRESS:` line reads as its lower-cased camera and its address |
| Controller.AnnouncementRoundTrip | OpenRailsLink.py:1939-1942 | round trip: every line the scanner announces (trackir_scanner.py:172) reads back as its camera and address |
| Controller.PidLineParses | OpenRailsLink.py:1935-1936 | a `FOUND_PID:` line reads as the process id in its third field |
| Controller.PidLineRoundTrip | OpenRailsLink.py:1935-1938 | round trip: the scanner's `FOUND_PID` line (trackir_scanner.py:106) reads back as its process id, whatever its sign |
| Controller.WriteErrorLine | OpenRailsLink.py:1923 | a `WRITE_ERROR:` line reports the stripped text after its first `:` |
| Controller.ManualSwitchNotPolled | OpenRailsLink.py:854 | the manual switch file is not the update file the writer polls (trackir_integration.py:190) |
| Controller.AddressEventAppends | OpenRailsLink.py:1939-1944 | a found address is appended to its camera's list iff the camera is known and the address is new; no other list changes |
| Controller.FoundKeepsAddresses | OpenRailsLink.py:1944-1946 | recording an address appends it, whatever happens to the writer |
| Controller.PidEventClears | OpenRailsLink.py:1935-1938 | a process id differing from a known one empties every list; the id is recorded |
| Controller.ScannerStepKeepsGood | OpenRailsLink.py:1935-1946 | scanner events keep every camera's list free of duplicates |
| Controller.WriterGetsAddress | OpenRailsLink.py:1944-1945 | with a writer running, a new address is written to that writer's update file |
| Controller.UpdateLineTarget | OpenRailsLink.py:876-880 | the writer reads the update line back as the address it carries |
| Controller.FoundAddressReachesWriter | OpenRailsLink.py:1939-1945 | scanner, window and writer together: a new announced address reaches the running writer's update file, and the writer reads it back as that address |
| Controller.FirstCabAddressStartsWriter | OpenRailsLink.py:1946 | the first cab address with no writer running starts one, passing each camera's first address and the active camera |
| Controller.RotateProperties | OpenRailsLink.py:866 | rotation keeps the entries, makes the second the head and the old head last, and keeps a duplicate-free list duplicate-free |
| Controller.TryNextShortList | OpenRailsLink.py:865 | a list of fewer than two addresses changes nothing |
| Controller.TryNextWithWriter | OpenRailsLink.py:863-867 | with a writer, the list is rotated and the new head is written as a manual switch |
| Controller.TryNextWithoutWriter | OpenRailsLink.py:863-867 | with no writer, the list is left holding only its old second entry, and nothing is written |
| Controller.SwitchDropsActiveMarker | OpenRailsLink.py:851-860 | selecting an item marked ` [ACTIVE]` keeps only its address |
| Controller.TryNextKeepsGood | OpenRailsLink.py:863-867 | "try next address" keeps every list free of duplicates |
| Controller.SwitchKeepsGood | OpenRailsLink.py:850-861 | a manual switch keeps every list free of duplicates |
| Controller.GameExitClears | OpenRailsLink.py:1719-1724 | once the known game exits: lists empty, process id 0, no worker running, every writer button disabled |
| Controller.GameRunningUnchanged | OpenRailsLink.py:1720-1723 | while the game runs, or when none is known, nothing changes |
| Controller.StartStopExclusive | OpenRailsLink.py:1899-1901 | a camera's Start and Stop buttons are never enabled together |
| Controller.OneStopAtMost | OpenRailsLink.py:1901 | only the active camera's Stop button can be enabled |
| Controller.StartAllIffSomeStart | OpenRailsLink.py:1901-1902 | "Start all" is enabled exactly when some camera's Start is |
| Controller.StopAllIffSomeStop | OpenRailsLink.py:1901-1902 | "Stop all" is enabled exactly when some camera's Stop is |
| Controller.TrackIRPanel.constructor | OpenRailsLink.py:411-424 | empty lists, no game, no writer, no scanner, the cab active |
| Controller.TrackIRPanel.ScannerStarted | OpenRailsLink.py:1755-1757 | the camera's scanner is recorded as running |
| Controller.TrackIRPanel.ReadScannerLine | OpenRailsLink.py:1926-1947 | one scanner line updates the window as its event specifies |
| Controller.TrackIRPanel.RecordPid | OpenRailsLink.py:1935-1938 | the process id step |
| Controller.TrackIRPanel.RecordAddress | OpenRailsLink.py:1943-1946 | the address step: append, then notify or start the writer |
| Controller.TrackIRPanel.StartTrackIRWriter | OpenRailsLink.py:1615-1676 | nothing without administrator rights; otherwise the old writer is stopped and a new one started when there is a cab address |
| Controller.TrackIRPanel.StopTrackIRWriter | OpenRailsLink.py:1678-1717 | the writer is stopped if one runs; nothing else changes |
| Controller.TrackIRPanel.StopCameraScan | OpenRailsLink.py:1845-1886 | the camera's scanner is stopped if it runs; nothing else changes |
| Controller.TrackIRPanel.StopWorkers | OpenRailsLink.py:1724 | the writer, then each running scanner in dictionary order, is stopped |
| Controller.TrackIRPanel.SwitchCameraAddress | OpenRailsLink.py:850-861 | the manual switch, as its specification says |
| Controller.TrackIRPanel.TryNextAddress | OpenRailsLink.py:863-867 | the rotation and switch, as its specification says |
| Controller.TrackIRPanel.CheckGameStatus | OpenRailsLink.py:1719-1725 | the game check, as its specification says |
| SteppedControls.Repeat | OpenRailsLink.py:1382-1383 | n copies of one click |
| SteppedControls.NetMoveConcat | OpenRailsLink.py:1382-1383 | the clicks of two command runs add up |
| SteppedControls.ClicksMove | OpenRailsLink.py:1382-1383 | the clicks sent move a stepped slider exactly from its last value to the target |
| SteppedControls.ClicksCompose | OpenRailsLink.py:1381-1384 | clicking from a to b and then from b to c moves the slider as clicking from a to c |
| SteppedControls.ExecuteRejects | OpenRailsLink.py:1365-1370 | a disabled or non-stepped control, or a step `int` rejects, changes nothing |
| SteppedControls.ExecuteDrivesToStep | OpenRailsLink.py:1363-1384 | the step becomes the only one held, its value the last value, and the clicks sent move the slider there |
| SteppedControls.StepToDrives | OpenRailsLink.py:1376-1384 | the state after driving a slider to a step |
| SteppedControls.NeutralStepFirst | OpenRailsLink.py:1399-1401 | the neutral step is the first step that is "0", names Neutral or is N, and none only when there is none |
| SteppedControls.ReleaseWhileHeld | OpenRailsLink.py:1390-1396 | releasing a step while another is held only forgets the released one |
| SteppedControls.ReleaseBeforeAnyStep | OpenRailsLink.py:1388 | before any step was pressed a release does nothing |
| SteppedControls.ReleaseLastReturnsToNeutral | OpenRailsLink.py:1386-1402 | releasing the last held step drives the control to its neutral step |
| SteppedControls.NeutralOfDefinitions | definitions.py:18-20 | the neutral step of the reverser, gear and headlights is "0" |
| SteppedControls.ZeroStep | OpenRailsLink.py:1369 | the neutral step "0" is the value 0 |
| SteppedControls.FractionInUnit | OpenRailsLink.py:1452-1453 | a value inside the slider's range is sent as a fraction between 0 and 1, hitting both ends |
| SteppedControls.SendSliderStepped | OpenRailsLink.py:1446-1450 | a stepped slider moved in the window is clicked to the new value, which becomes its last value |
| SteppedControls.SendSliderContinuous | OpenRailsLink.py:1451-1454 | any other slider is sent one value command and nothing else changes |
| SteppedControls.StepBindings.constructor | OpenRailsLink.py:1372 | no step table yet, nothing held, no last values, nothing sent |
| SteppedControls.StepBindings.SendClicks | OpenRailsLink.py:1382-1383 | the loop sends n copies of the click |
| SteppedControls.StepBindings.ClickFromTo | OpenRailsLink.py:1382-1383 | the clicks from one value to another |
| SteppedControls.StepBindings.ExecuteStepBinding | OpenRailsLink.py:1363-1384 | the state after `execute_step_binding` is its specification's |
| SteppedControls.StepBindings.FindNeutral | OpenRailsLink.py:1399-1401 | the loop over the steps finds the neutral step |
| SteppedControls.StepBindings.ReleaseStepBinding | OpenRailsLink.py:1386-1402 | the state after `release_step_binding` is its specification's |
| SteppedControls.StepBindings.SendSliderValue | OpenRailsLink.py:1444-1454 | the state after `send_slider_value_from_gui` is its specification's |
| Saitek.Position | hid_manager.py:12-26 | every mapped bit lies in the first three bytes and below bit 8 |
| Saitek.AliasNamed | hid_manager.py:56 | a name found in the mapping is that alias's name |
| Saitek.NamesDistinct | hid_manager.py:27 | the switch list and the gear list name each switch once, and the gear positions are not switches |
| Saitek.NameInjective | hid_manager.py:12-26 | the names the events carry tell the aliases apart |
| Saitek.BitOutsideReport | hid_manager.py:55-58 | an unknown alias, or a byte past the report's end, reads as not set |
| Saitek.IsBitSetByName | hid_manager.py:55-58 | `is_bit_set` on a switch's name reads that switch's bit |
| Saitek.BatteryBit | hid_manager.py:13 | BAT is bit 0 of the first byte |
| Saitek.LandingBit | hid_manager.py:19 | LANDING is bit 4 of the second byte |
| Saitek.SwitchPassRecords | hid_manager.py:70-72 | after a pass each listed switch records its bit, and no other record changes |
| Saitek.SwitchPassEvents | hid_manager.py:70-72 | the events of a pass are exactly the switches whose bit differs from the record, in list order |
| Saitek.SwitchPassQuiet | hid_manager.py:70-72 | a pass over switches at their recorded positions emits nothing and changes nothing |
| Saitek.ChangedFromNothing | hid_manager.py:70-72 | with nothing recorded, every switch emits one event carrying its bit |
| Saitek.ChangedIgnoresOthers | hid_manager.py:70-72 | a pass reads the record only at its listed switches |
| Saitek.GearPassTwo | hid_manager.py:73-75 | the two gear checks are a pass over GEAR_UP then GEAR_DOWN |
| Saitek.GearsFresh | hid_manager.py:73-75 | the switch pass leaves the gear positions unrecorded when nothing was recorded before |
| Saitek.FirstSetIsFirst | hid_manager.py:76 | the dial position is the first set position, and none only when no position is set |
| Saitek.RotaryEvents | hid_manager.py:76-81 | on a dial change, OFF for the old position (if any) and then ON for the new one (if any); otherwise nothing |
| Saitek.HandleInputEvents | hid_manager.py:69-81 | a report emits the switch changes, then the gear changes, then the dial change, and records the report |
| Saitek.HandleInputIdempotent | hid_manager.py:69-81 | the same report a second time emits nothing and changes nothing |
| Saitek.FirstReportEmitsAll | hid_manager.py:69-81 | the first report emits one event for each of the 13 switches and both gear positions, in that order, each carrying its bit |
| Saitek.PanelManager.constructor | hid_manager.py:30-32 | nothing recorded and nothing emitted |
| Saitek.PanelManager.Check | hid_manager.py:71-72 | one switch: an event and a new record on a change |
| Saitek.PanelManager.CheckAll | hid_manager.py:70-72 | the loop over the switch list is a pass over it |
| Saitek.PanelManager.CheckGears | hid_manager.py:73-75 | the two gear checks |
| Saitek.PanelManager.CheckDial | hid_manager.py:76-81 | the dial check |
| Saitek.PanelManager.HandleReport | hid_manager.py:69-81 | the state after `handle_input` is its specification's |
| Controls.StepOfValueTarget | controls.py:252 | the step of a `value_<s>` target is `s` |
| Controls.PutReads | controls.py:244-250 | storing a binding under a key puts it there and ends listening; every other binding is unchanged |
| Controls.PutStepReads | controls.py:252 | storing a step binding puts it there and ends listening; every other binding is unchanged |
| Controls.CaptureWhileIdle | controls.py:240-258 | while no button listens, neither capture changes anything |
| Controls.CaptureSaitekCases | controls.py:257-268 | each target gets the panel binding on its own state (OFF only for `off_button`), and any other input changes nothing |
| Controls.CaptureJoystickCases | controls.py:240-255 | the axis target takes axis motion with the inversion box's state; the button targets take a press only; anything else changes nothing |
| Controls.ProcessEventRaw | controls.py:36-39 | axis motion, button press (1.0) and release (0.0) become raw events of that joystick; other events none |
| Controls.ReleaseNeverBinds | controls.py:246-253 | a released button (value 0, as the button-up event sends it) never makes a binding |
| Controls.PressBindsButton | controls.py:246-247 | a press while listening for `button` binds that joystick button |
| Controls.MotionBindsOnlyAxis | controls.py:243-254 | axis motion binds only the axis target |
| Controls.DeleteIgnored | controls.py:271-274 | no selected control, or a control without bindings: nothing changes |
| Controls.DeleteSlot | controls.py:282-286 | removes the binding under the key, and drops the control once it has none |
| Controls.DeleteStep | controls.py:276-281 | removes the step binding, drops an emptied `values` table and then an emptied control; nothing else changes |
| Controls.DeleteValues | controls.py:282-286 | deleting `values` removes every step binding of the control |
| Controls.PutKeepsTidy | controls.py:244-266 | storing a binding keeps the table free of empty entries |
| Controls.SaitekCaptureKeepsTidy | controls.py:257-268 | panel capture keeps the table free of empty entries and empty `values` tables |
| Controls.JoystickCaptureKeepsTidy | controls.py:240-255 | joystick capture keeps the table free of empty entries and empty `values` tables |
| Controls.DeleteKeepsTidy | controls.py:270-288 | delete keeps the table free of empty entries and empty `values` tables |
| Controls.ToggleListens | controls.py:235-238 | turning a button on listens on it for its target and unchecks the previous one; turning it off ends listening |
| Controls.ToggleKeepsOneChecked | controls.py:235-238 | at most one Bind button is checked, the listening one |
| Controls.CaptureKeepsOneChecked | controls.py:255-268 | a capture that ends listening leaves no Bind button checked |
| Controls.FormatKinds | controls.py:226-229 | the label is "None" exactly for a missing binding; panel labels start with "Saitek Panel - " and joystick labels with "Joy " |
| Controls.FormatJoystickId | controls.py:229 | the joystick number can be read back from a joystick label |
| Controls.CapitalizedKinds | controls.py:229 | the two kinds are labelled "Axis" and "Button" |
| Controls.BindingsEditor.constructor | controls.py:45-47 | the main window's bindings, nothing selected and nothing listening |
| Controls.BindingsEditor.EndListening | controls.py:255 | unchecking the listening button clears the mode only |
| Controls.BindingsEditor.CaptureSaitekInput | controls.py:257-268 | the state after `capture_saitek_input` is its specification's |
| Controls.BindingsEditor.CaptureJoystickInput | controls.py:240-255 | the state after `capture_joystick_input` is its specification's |
| Controls.BindingsEditor.DeleteBinding | controls.py:270-288 | the state after `delete_binding` is its specification's |
| Controls.BindingsEditor.ToggleListenMode | controls.py:235-238 | the state after `toggle_listen_mode` is its specification's |
| PyText.SplitJoinSpace | trackir_scanner.py:26 | splitting tokens joined by single spaces gives them back |
| PyText.ParseIntToString | OpenRailsLink.py:1936 | `int(str(n))` is n |
| PyText.ParseIntHex | trackir_integration.py:130 | `int(hex(n), 16)` is n |
| PyText.SplitOn | OpenRailsLink.py:1936-1940 | `split(c)` gives at least one piece, two once `c` occurs, and no piece holds `c` |

## Left out

- Processes, files, pipes, sleeps and timers are not modelled. Neither are the
  Windows memory API (`pymem`, `virtual_query`, `read_bytes`, `read_float`,
  `write_float`), the TrackIR SDK, `psutil`, `hid` and `pygame`. Their results
  are parameters: a region list, byte and float readers, a memory map,
  samples, and flags for "game alive", "shutdown flag present" and "parent
  alive".
- The region walk's address arithmetic is not modelled: `next_address`, the 4096-byte
  steps after `WinAPIError`, `TypeError` and `BufferError`, and the
  end-of-address-space bound. The walk is a list of regions.
- Bytes that fail to read, and radius reads that raise, are modelled as `None`
  results. An exception from anywhere else inside the walk (the outer `try`)
  is not.
- Single-precision floats are modelled as reals. `write_float`'s rounding and
  the `abs(radius) < threshold` comparison on NaN are not captured.
- Progress, log and heartbeat output, and the writer's console output are not
  modelled. The scanner's `FOUND_ADDRESS`/`FOUND_PID` lines are modelled. The
  writer never prints `WRITE_ERROR:` or `RAW_DATA_*` lines, so only the reading
  side of `WRITE_ERROR:` is modelled.
- `RAW_DATA_ROT`/`RAW_DATA_POS` regular-expression parsing is not modelled:
  float parsing of text is outside the model.
- The scanner's monitoring loop (`run`, rescans, re-attaching) is not modelled,
  and neither is the writer's `attach_to_game` or the TrackIR client.
- `on_trackir_address_invalid` is not modelled: it is outside the named core.
- The Qt widgets are not modelled: labels, list refreshes, `setValue`,
  `blockSignals` and `select_control`. The slider's shown value after a step
  is not modelled; the last value the window remembers is.
- `KeyboardInterrupt` in the writer is not modelled.
- Configuration values are not type-checked: a configuration holds reals for
  the limits and adds, and strings for the offsets.
- The controller's `int()` and `lower()` are given only text, and `lower`
  works on ASCII.
- Writer.SimpleTrackIRWriter.constructor: requires a start-up argument that
  parses; a non-hex argument makes `__init__` raise `ValueError`
  (trackir_integration.py:130), which the model states as `Startup.Crashed`
  of `Writer.InitialAddress` instead of an object that is never built.
- Controller.SwitchStep: an item text with no word raises in `split()[0]`
  before anything changes. The model returns the state unchanged.
- Controller.ScannerStep and the `FOUND_ADDRESS` event: the address list is
  keyed by the `Camera` datatype. A key other than the three names is ignored,
  as the `cam in self.trackir_addresses` test does.
- Saitek.HandleInput: the `"ROTARY"` entry of `last_states` is a separate
  `rotary` field. No switch is called `ROTARY`, so the two tables cannot clash.
- Controls.BindingsEditor.constructor: the editor's `current_bindings.copy()`
  is shallow. Each control's table is the same object as in the main window,
  so edits made before Cancel still reach the main window. The model copies
  by value and does not capture that sharing.
- Controls: the editor's `capture_input` entry point is called by the main
  window but is not defined in `controls.py`. The two capture methods are
  modelled as written.
- The joystick listener's thread loop (`_listen_for_events` and its `joy`
  filter), `start_listening`, `stop_listening`, `update_axis_inversion` and
  `update_input_meter` are not modelled.
- Controls.StepOf: `target.split("_")[1]` cannot raise `IndexError`, because a
  target holding `value_` has an underscore (`Controls.ValueTargetSplits`).
- PyText.Capitalize only handles ASCII; Python's Unicode case mapping is not
  modelled.

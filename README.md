# BLE keep-alive keyboard sketch, modelled in Dafny

This project models the ESP32 keep-alive sketch `BLE_NFC_SCANNER_TEST/src/main.cpp`. The device shows up to a host as a Bluetooth keyboard named "NFC_SCANNER". When a host connects, it types a greeting and presses Enter. While the host stays connected, it types `Serial Number ` and presses Enter every ten seconds. Two routines do the typing:

- `typeReliablySafe` sends keystrokes under a release discipline: a release-all barrier, then one press and one release per character, then a closing release-all. It checks the connection before every character and stops with an emergency release-all when the link is down.
- `pressEnterSafe` sends a single guarded Enter.

The model has four modules:

- `Keys` (`keys.dfy`): the keyboard as an append-only log of `ReleaseAll`, `Press(k)` and `Release(k)` events.
  - It defines the release discipline `PairedPresses`: every press is followed at once by the release of the same key.
  - It defines `KeysDown`, the keys held after replaying a log.
  - It proves that under the discipline no key is ever stuck.
- `Typing` (`typing.dfy`): what `typeReliablySafe` and `pressEnterSafe` send, as pure functions.
  - The connection status is an oracle `link: nat -> bool`. The answer to the q-th `isConnected()` query is `link(q)`, so the link may drop between any two characters.
  - `TypeRun` gives the events of one typing run and the index of the next query.
- `Interval` (`interval.dfy`): `unsigned long` as the 32-bit newtype `U32`, the wrap-around subtraction `Sub`, and the send test `Due`.
- `Sketch` (`sketch.dfy`): the globals and one pass of `loop()`.
  - `Step` is the pure specification of a pass. It is made of the three blocks of `loop()`: `OnConnect`, `OnDisconnect` and `OnInterval`.
  - The class `Device` holds the globals `wasConnected` and `lastSendTime`, the keyboard log `trace`, the count of connection queries, and the oracle.
  - Its methods run the firmware step by step with loops and appends.
  - `TypeReliablySafe`, `PressEnterSafe`, `Loop`, `ConnectBlock`, `DisconnectBlock` and `IntervalBlock` are each proved to agree with the pure functions and to keep the release discipline (`Valid`).
  - The keyboard primitives `IsConnected`, `PressKey`, `ReleaseKey` and `ReleaseAllKeys` only state the field each one changes. A lone press breaks the discipline until its release follows, so they do not promise `Valid`.

`millis()` is not modelled as a clock. Its two readings in one pass are the parameters of `Device.Loop`:

- `tConnect` is the reading taken in the new-connection block.
- `tNow` is the reading taken in the periodic block.

`Device.Loop` runs the three blocks of `loop()` as three methods: `ConnectBlock`, `DisconnectBlock` and `IntervalBlock`. They run in the source's order and have the source's conditions.

The two messages are fields of `Device`, and the constructor sets them to the sketch's string literals. The pure `Step` takes them as parameters. `MessagesHaveNoNul` shows that both literals are typed in full.

## Model

| member | source | states |
|---|---|---|
| `Keys.KeysDownPaired` | BLE_NFC_SCANNER_TEST/src/main.cpp:86-88 | under press-then-release pairing, the only key that can be down at any point of the log is the one just pressed |
| `Keys.NoKeyStuck` | BLE_NFC_SCANNER_TEST/src/main.cpp:81-93 | a log that keeps the discipline leaves no key down, and never has more than one key down at a time |
| `Keys.PressedConcat` | BLE_NFC_SCANNER_TEST/src/main.cpp:86 | the keys pressed by two logs in sequence are those of the first followed by those of the second |
| `Typing.CString` | BLE_NFC_SCANNER_TEST/src/main.cpp:77 | the typed characters are the longest NUL-free prefix of the text: a prefix, with no NUL, stopping at the first NUL |
| `Typing.ConnectedRun` | BLE_NFC_SCANNER_TEST/src/main.cpp:77-83 | the number of characters typed is bounded by the text length; every query before it reports connected, and the next one, if the text is not finished, reports a disconnect |
| `Typing.Keystrokes` | BLE_NFC_SCANNER_TEST/src/main.cpp:86-88 | each character contributes exactly two events |
| `Typing.KeystrokesAt` | BLE_NFC_SCANNER_TEST/src/main.cpp:86-88 | character j is pressed at position 2j and released at 2j+1, so characters go out in text order |
| `Typing.KeystrokesSnoc` | BLE_NFC_SCANNER_TEST/src/main.cpp:77-90 | one more loop iteration appends exactly the press and release of the next character |
| `Typing.PressedKeystrokes` | BLE_NFC_SCANNER_TEST/src/main.cpp:86 | the keys pressed by the keystrokes are the characters of the text, in order |
| `Typing.KeystrokesHaveNoReleaseAll` | BLE_NFC_SCANNER_TEST/src/main.cpp:85-89 | no release-all occurs between the barrier and the closing release-all |
| `Typing.TypeEvents` | BLE_NFC_SCANNER_TEST/src/main.cpp:72-95 | a typing run that typed the whole of s sends two events per character plus two, opening and closing with a release-all; `TypeEventsPaired` and `TypeEventsPressed` state its discipline and its presses |
| `Typing.EnterEvents` | BLE_NFC_SCANNER_TEST/src/main.cpp:98-107 | pressEnterSafe sends something exactly when its check reports connected, and then it presses Enter and ends with a release-all; `EnterEventsDiscipline` states its discipline and presses |
| `Typing.TypeEventsPaired` | BLE_NFC_SCANNER_TEST/src/main.cpp:72-95 | a typing log keeps the release discipline |
| `Typing.TypeEventsPressed` | BLE_NFC_SCANNER_TEST/src/main.cpp:72-95 | the presses of a typing log are the typed characters, in order |
| `Typing.EnterEventsDiscipline` | BLE_NFC_SCANNER_TEST/src/main.cpp:98-106 | pressEnterSafe's events keep the discipline and press exactly Enter when connected, nothing otherwise |
| `Typing.TypeRun` | BLE_NFC_SCANNER_TEST/src/main.cpp:72-95 | typeReliablySafe asks at most one connection query per character of the C string, and its log opens and closes with a release-all whatever the link does; `TypeRunDiscipline`, `TypeRunCompletes` and `TypeRunAborts` state the rest |
| `Typing.TypeRunDiscipline` | BLE_NFC_SCANNER_TEST/src/main.cpp:72-95 | for any link behaviour: the first and last events are release-all; the release discipline holds; the presses are a prefix of the text in order; every pressed character's query reported connected; one query per pressed character, plus one if it aborted |
| `Typing.TypeRunCompletes` | BLE_NFC_SCANNER_TEST/src/main.cpp:77-94 | if every query reports connected, the log is barrier, whole text, release-all; the press count equals the text length; exactly one query per character |
| `Typing.TypeRunAborts` | BLE_NFC_SCANNER_TEST/src/main.cpp:79-83 | if query i is the first to fail, exactly text[0..i) is pressed, a single release-all follows, and no query after i is asked |
| `Interval.Sub` | BLE_NFC_SCANNER_TEST/src/main.cpp:157 | unsigned subtraction is the inverse of addition mod 2^32: plain difference without wrap, difference plus 2^32 with wrap |
| `Interval.Due` | BLE_NFC_SCANNER_TEST/src/main.cpp:157 | the send test compares the plain difference with 10000 when the clock has not wrapped since lastSendTime, and the difference plus 2^32 when it has; `DueAcrossRollover` ties it to real elapsed time |
| `Interval.ElapsedAcrossRollover` | BLE_NFC_SCANNER_TEST/src/main.cpp:154-157 | the wrapped difference of two millis() readings is the true elapsed time whenever less than 2^32 ms passed, including across a counter rollover |
| `Interval.DueAcrossRollover` | BLE_NFC_SCANNER_TEST/src/main.cpp:157 | the send test fires exactly when at least 10000 ms really passed, rollover or not |
| `Interval.NotDueRightAfter` | BLE_NFC_SCANNER_TEST/src/main.cpp:127-170 | less than SEND_INTERVAL after the reading stored in lastSendTime, the test does not fire |
| `Sketch.Deliver` | BLE_NFC_SCANNER_TEST/src/main.cpp:138-139 | typing then Enter only appends to the keyboard log |
| `Sketch.OnConnect` | BLE_NFC_SCANNER_TEST/src/main.cpp:124-141 | afterwards the device counts as connected if it was, or the sampled status says so; on a rising edge lastSendTime becomes the connect reading and the first new event is a release-all; otherwise nothing changes; the log only grows |
| `Sketch.OnDisconnect` | BLE_NFC_SCANNER_TEST/src/main.cpp:144-150 | afterwards the device counts as connected only if it was and the sampled status says so; exactly one release-all is appended when that flag falls, nothing otherwise; lastSendTime and the query count are unchanged |
| `Sketch.OnInterval` | BLE_NFC_SCANNER_TEST/src/main.cpp:153-174 | the periodic block sends and sets lastSendTime to tNow only when the sampled status is connected, wasConnected holds, the interval is due and the second check reports connected; on every other path the log and lastSendTime are unchanged; wasConnected is never changed, and the log only grows |
| `Sketch.Step` | BLE_NFC_SCANNER_TEST/src/main.cpp:120-181 | after a pass, wasConnected equals the status sampled at its start; the log only grows; at least one query is asked |
| `Sketch.DeliverPaired` | BLE_NFC_SCANNER_TEST/src/main.cpp:138-139 | typing then Enter keeps the release discipline of the log |
| `Sketch.ReleaseAllPaired` | BLE_NFC_SCANNER_TEST/src/main.cpp:133 | an extra release-all keeps the discipline |
| `Sketch.OnConnectPaired` | BLE_NFC_SCANNER_TEST/src/main.cpp:124-141 | the new-connection block keeps the discipline |
| `Sketch.OnIntervalPaired` | BLE_NFC_SCANNER_TEST/src/main.cpp:153-174 | the periodic block keeps the discipline |
| `Sketch.StepKeepsKeysReleased` | BLE_NFC_SCANNER_TEST/src/main.cpp:120-181 | every pass keeps the discipline; after it no key is down, and no more than one key was ever down at a time |
| `Sketch.FallingEdge` | BLE_NFC_SCANNER_TEST/src/main.cpp:144-150 | on a disconnect the pass only clears wasConnected and emits one release-all; lastSendTime is unchanged |
| `Sketch.StaysDisconnected` | BLE_NFC_SCANNER_TEST/src/main.cpp:121-180 | while disconnected a pass sends nothing and changes no global |
| `Sketch.QuietUntilDue` | BLE_NFC_SCANNER_TEST/src/main.cpp:153-157 | while connected and before the interval has elapsed, a pass sends nothing and changes no global |
| `Sketch.SendTimeMovesOnlyOnSend` | BLE_NFC_SCANNER_TEST/src/main.cpp:153-174 | outside a rising edge, lastSendTime becomes tNow if and only if the host was connected before and now, the wrapped elapsed time is at least 10000, and the second check passes; otherwise it is unchanged |
| `Sketch.RisingEdge` | BLE_NFC_SCANNER_TEST/src/main.cpp:124-174 | a connect sets wasConnected; lastSendTime ends as tNow if tNow is a full interval after the connect reading and the second check, asked after the greeting, reports connected, and as the connect reading otherwise; when it stays at the connect reading, nothing follows the greeting and its Enter; the pass's first two events are release-alls, before any press |
| `Sketch.SecondCheckFails` | BLE_NFC_SCANNER_TEST/src/main.cpp:157-173 | when the interval has elapsed but the second check reports a disconnect, nothing is sent, no global changes and the interval keeps running; only two queries are spent |
| `Sketch.DeliverStable` | BLE_NFC_SCANNER_TEST/src/main.cpp:138-139 | with the link up throughout, typing then Enter sends the whole of a NUL-free text and one Enter |
| `Sketch.GreetingOnStableConnect` | BLE_NFC_SCANNER_TEST/src/main.cpp:124-141 | on a stable connect, while the interval is not yet due at tNow, the pass sends release-all, the whole greeting, then Enter; the pressed keys are the greeting then Enter |
| `Sketch.ReportOnStableLink` | BLE_NFC_SCANNER_TEST/src/main.cpp:153-174 | once due on a stable link the pass sends release-all, the whole report, then Enter, and restarts the interval at tNow |
| `Sketch.DroppedReportNotRetried` | BLE_NFC_SCANNER_TEST/src/main.cpp:159-170 | if the link drops right after the second check, nothing is typed, yet lastSendTime becomes tNow: no retry |
| `Sketch.PressedMessage` | BLE_NFC_SCANNER_TEST/src/main.cpp:163-167 | release-all, a typed text and an Enter press exactly the text's keys then Enter |
| `Sketch.MessagesHaveNoNul` | BLE_NFC_SCANNER_TEST/src/main.cpp:138-166 | the two string literals contain no NUL, so each is typed in full |
| `Sketch.Device.constructor` | BLE_NFC_SCANNER_TEST/src/main.cpp:65-68 | the globals start at wasConnected = false and lastSendTime = 0, with an empty keyboard log |
| `Sketch.Device.IsConnected` | BLE_NFC_SCANNER_TEST/src/main.cpp:121 | returns the oracle's next answer and changes nothing else |
| `Sketch.Device.PressKey` | BLE_NFC_SCANNER_TEST/src/main.cpp:86 | appends one press |
| `Sketch.Device.ReleaseKey` | BLE_NFC_SCANNER_TEST/src/main.cpp:88 | appends one release |
| `Sketch.Device.ReleaseAllKeys` | BLE_NFC_SCANNER_TEST/src/main.cpp:74 | appends one release-all |
| `Sketch.Device.TypeReliablySafe` | BLE_NFC_SCANNER_TEST/src/main.cpp:72-95 | the loop appends exactly TypeRun's events and asks exactly its queries; the globals are unchanged; the discipline is kept |
| `Sketch.Device.PressEnterSafe` | BLE_NFC_SCANNER_TEST/src/main.cpp:98-107 | appends nothing when disconnected, otherwise press Enter, release Enter, release-all; exactly one query |
| `Sketch.Device.Loop` | BLE_NFC_SCANNER_TEST/src/main.cpp:120-181 | one pass leaves the globals, the log and the query count exactly as Step says, and keeps the discipline |
| `Sketch.Device.ConnectBlock` | BLE_NFC_SCANNER_TEST/src/main.cpp:124-141 | the new-connection block behaves as OnConnect |
| `Sketch.Device.DisconnectBlock` | BLE_NFC_SCANNER_TEST/src/main.cpp:144-150 | the disconnection block behaves as OnDisconnect |
| `Sketch.Device.IntervalBlock` | BLE_NFC_SCANNER_TEST/src/main.cpp:153-174 | the periodic block behaves as OnInterval, with the send test as 32-bit wrap-around subtraction |

## Left out

- `delay(...)`: every call is pacing only and is a no-op here. This covers the 3-second settle after a connect and the per-character `charDelay`. The `charDelay` parameter of `typeReliablySafe` is therefore dropped. Time that passes during a pass shows only through the two injected clock readings.
- `Serial.begin` / `Serial.println` and `setup()`: logging and start-up, with no effect on control flow.
- BleKeyboard internals (pairing, advertising, HID reports, the battery level): the library is not part of this model. Only `press`, `release`, `releaseAll` and `isConnected` are modelled. `KEY_RETURN` is the distinct key `Return` rather than its numeric code.
- The radio stack that changes the connection state asynchronously: an oracle answers each `isConnected()` query. There is no real concurrency.
- `millis()`: its readings are parameters of `Device.Loop`. `Interval.Millis` gives the reading after a given uptime, truncated to 32 bits; the rollover lemmas use it. Nothing says that two readings are ordered or that the clock is monotonic, so the lemmas hold for any readings.
- The comment blocks around the code describe older variants (`typeReliably`, `print`, `write(KEY_RETURN)`). They are not code and are not modelled.
- The card-reader part of the system is not code in this sketch: frame building, the XOR checksum, response scanning, debounce and printable-ASCII filtering. None of it is modelled. The model follows the code that is present.
- `const char*` text: the C string's bytes are modelled as Dafny `char`s, one press and one release per character rather than per byte. For a non-ASCII text, a multi-byte UTF-8 character would be typed as several bytes by the sketch but as one character here. Both literals of the sketch are ASCII, so nothing differs for them.
- Host-side behaviour (whether a dropped HID report is lost) is outside the model. The log records what the sketch asked the keyboard to send.

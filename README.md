# nanoKONTROL2 event-mapping engine

A Dafny model of the event-mapping engine of `main.go`, a bridge that turns the
button, slider and knob events of a Korg nanoKONTROL2 MIDI controller into OSC
control messages for an application listening on the same machine. The engine is a small sequential
state machine over two globals: `page` (starting at 1, always in [1,8]) and `group`
(starting at `"s1"`). It also keeps the alias table `groupNames` that `loadNames`
fills from an optional `key=value` file.

For each event `(element, value)`, which are the second and third bytes of a MIDI
packet, the engine does one of the following:

- **Paging.** On a press (value 127), TrackPrevious (58) and TrackNext (59) move
  `page` down or up by one. TrackPrevious on page 1 and TrackNext on page 8 do
  nothing.
- **Channel messages.** Sliders (0-7) and knobs (16-23) send a message on every
  value. The address is `/<group>/slider/<channel>` or `/<group>/knob/<channel>`.
  The channel is `element + delta + (page-1)*8`, with a delta of +1 for sliders and
  -15 for knobs. The payload is `value * 255 / 127` rounded to the nearest integer.
- **Group selection.** On a press, a solo (32-39), mute (48-55) or record (64-71)
  button sets `group` to `s<i>`, `m<i>` or `r<i>`, where `i` is the button's
  1-based position in its bank.
- **Transport.** The nine transport buttons send a fixed address with payload 255
  on every value, pressed or released.
- **Status line.** Each page change and each group press prints
  `Group: <group>[ (<alias>)], Page: <n>`.
- Anything else is ignored.

Modules:

- `Wrappers`: `Option` and `Result`.
- `Strings`: Go's `strings.Split` on one character, `strings.TrimSpace` and the
  `%d` rendering, each with the lemmas that read them back.
- `Controls`: the element constants, the bank deltas, the transport `switch` and
  the element classifier.
- `Mapping`: channel numbers, payload rescaling, outbound addresses, group tokens
  and the status line.
- `Aliases`: the per-line `key=value` parse of `loadNames` and the fold of the
  lines into the table.
- `EventEngine`: the session state, the reference definition `Step` of one
  event, `Run` over a sequence of events, and the class `Engine`. The class holds
  the fields `page`, `group` and `groupNames`. Its methods are `Handle` (the
  `handler` callback, following its own chain of `if`/`else if` tests), `SendOsc`
  and `LoadNames`.
- `EngineProperties`: the engine's guarantees, stated over `Step` and `Run`.

`Engine.Handle` is proved to produce exactly the state, message and status line
that `Step` gives. The properties proved about `Step` therefore hold of the
handler.

A few consequences of the code worth stating plainly:

- Value 64 gives payload 129 (128.50… rounded).
- Channels run from 1 to 64.
- Solo, mute and record buttons only select a group; they never send a channel
  message.

## Model

| member | source | states |
|---|---|---|
| `Controls.Delta` | main.go:44-48 | Each class delta maps the first element of its bank to index 1 and the last to index 8. |
| `Controls.Classify` | main.go:20-48 | A bank control carries its bank, an index in 1..8 equal to element + delta, and the element lies in that bank. A transport class carries the button's non-empty switch address. TrackPrevious and TrackNext are exactly elements 58 and 59. |
| `Controls.ClassesDisjoint` | main.go:20-41 | No element lies in two banks. No bank element is a paging or transport button, and no transport button is a paging button. The order of the tests therefore does not matter. |
| `Controls.ClassifyBank` | main.go:66-78 | Every element of a bank is classified into that bank with index element + delta. |
| `Controls.ClassifyUnmapped` | main.go:79-105 | An element is unmapped exactly when it is neither a paging button, nor in any bank, nor a case of the transport switch. |
| `Controls.ClassifyInjective` | main.go:20-41 | Two elements with the same mapped class are the same element. |
| `Controls.TransportAddress` | main.go:81-100 | The switch gives a non-empty suffix exactly for the nine transport buttons. TransportAddressMatchesTable pairs each button with its suffix, and TransportAddressInjective shows the suffixes are distinct. |
| `Controls.TransportAddressMatchesTable` | main.go:81-100 | The switch gives a non-empty address exactly for the nine buttons cycle, marker set/previous/next, rewind, forward, stop, play and record, each with its own suffix. |
| `Controls.TransportAddressInjective` | main.go:81-100 | No two transport buttons share an address. |
| `Mapping.Channel` | main.go:127 | For a bank position in 1..8 and a page in 1..8, the channel lies in [1,64]. |
| `Mapping.ChannelLayout` | main.go:127 | The bank position and the page can both be recovered from the channel (modulo and division by 8). |
| `Mapping.ChannelIncreasing` | main.go:127 | For a fixed element, the channel strictly increases with the page, in both directions of the equivalence. |
| `Mapping.ChannelInjective` | main.go:127 | Distinct (position, page) pairs never share a channel. |
| `Mapping.Scale` | main.go:128-130 | The payload r satisfies abs(254r - 510v) < 127, so it is within one half of v*255/127. |
| `Mapping.ScaleIsNearest` | main.go:128-130 | Only one integer is within one half of v*255/127. So Scale is math.Round of that quotient, and ties never arise. |
| `Mapping.ScaleRange` | main.go:128-130 | For v in [0,127] the payload is in [0,255], with 0 mapped to 0 and 127 to 255. |
| `Mapping.ScaleFitsInt32` | main.go:130 | Every byte value, 255 included, rescales to at most 512, so the int32 conversion never wraps. |
| `Mapping.ScaleMidpoints` | main.go:128-130 | 63 maps to 126 and 64 maps to 129. |
| `Mapping.ScaleMonotone` | main.go:128-130 | A larger value never gives a smaller payload. |
| `Mapping.ScaleStep` | main.go:128-130 | Raising the value by one raises the payload by 2 or by 3. |
| `Mapping.ChannelAddress` | main.go:129 | `/<group>/<type>/<channel>` parses back to the same group, type and channel when neither group nor type holds a '/'. |
| `Mapping.ChannelAddressDistinct` | main.go:129 | Distinct channels of one group and type get distinct addresses. |
| `Mapping.TransportMessage` | main.go:101-104 | The payload is 255, and the address splits into an empty root segment followed by the segments of the switch suffix. |
| `Mapping.FirstSliderAddress` | main.go:67 | Slider 1 on page 1 in group "s1" is addressed `/s1/slider/1`. |
| `Mapping.GroupToken` | main.go:70-78 | The token is the class letter followed by the decimal digits of the index, and it is two characters long exactly when the index is below 10. GroupTokenFormat makes this precise for indexes 1..8. |
| `Mapping.GroupTokenFormat` | main.go:70-78 | A letter s/m/r followed by the `%d` of an index is a valid token (letter plus digit 1-8) exactly when the index is in 1..8, and the token carries that index. |
| `Mapping.ValidGroupTokenIsSynthesized` | main.go:70-78 | Every valid token is the token of its letter and its index. |
| `Mapping.ValidGroupTokenHasNoSlash` | main.go:129 | A valid token holds no '/', so it forms a single address segment. |
| `Mapping.GroupDisplay` | main.go:109-112 | The shown group starts with the group token. It differs from the token exactly when groupNames holds the group. StatusLineGroup and StatusLinePage place it and the page in the status line of main.go:113. |
| `Mapping.StatusLine` | main.go:113 | The printed line. StatusLineGroup shows it begins with "Group: ", the token and the alias in parentheses when there is one. StatusLinePage shows the printed page reads back from its end. |
| `Mapping.StatusLinePage` | main.go:113 | The status line ends in the decimal page and a newline, and that page reads back. |
| `Mapping.StatusLineGroup` | main.go:108-113 | The status line begins with "Group: " and the group token. When the group has an alias, " (" and the alias follow. |
| `Mapping.PageFourStatusLine` | main.go:113 | Group "s1" without an alias on page 4 prints "Group: s1, Page: 4\n". |
| `Strings.Split` | main.go:174 | strings.Split gives at least one piece, and no piece holds the separator. JoinSplit and SplitJoin show it is the inverse of Join. |
| `Strings.JoinSplit` | main.go:174 | Joining the pieces of strings.Split restores the line. |
| `Strings.SplitJoin` | main.go:174 | Splitting a join of separator-free pieces gives the pieces back. |
| `Strings.SplitCount` | main.go:174-175 | A line splits into two or more pieces exactly when it holds '='. |
| `Strings.TrimSpace` | main.go:175 | The result is no longer than the input and neither starts nor ends with white space. TrimSpaceFrames shows it is the input with white space cut from both ends. |
| `Strings.TrimSpaceFrames` | main.go:175 | TrimSpace gives the middle of the string with only white space cut from either end. The result neither starts nor ends with white space. |
| `Strings.TrimSpaceIdempotent` | main.go:175 | Trimming twice is trimming once. |
| `Strings.NatToDecimal` | main.go:71 | `%d` produces at least one digit, has no leading zero and is a single digit exactly below 10. |
| `Strings.DecimalRoundTrip` | main.go:129 | Reading the `%d` rendering back gives the number. |
| `Aliases.ParseLine` | main.go:174-175 | A line binds nothing (values[1] is out of range) exactly when it holds no '='. |
| `Aliases.ParseLineParts` | main.go:174-175 | The key is the trimmed text before the first '=' and the value is the trimmed first piece after it. |
| `Aliases.ParseLineDropsRest` | main.go:174-175 | Text after a second '=' is dropped. |
| `Aliases.Insert` | main.go:175 | Inserting a line fails exactly on a malformed line and reports that line's index. |
| `Aliases.Fold` | main.go:173-176 | A failing fold reports the index of a line that exists. |
| `Aliases.FoldFailsIffMalformed` | main.go:173-176 | The fold succeeds exactly when every line holds '='. |
| `Aliases.FoldFailsAtFirstMalformed` | main.go:173-176 | A failing fold stops at the first malformed line. |
| `Aliases.FoldFailureLasts` | main.go:173-176 | Once a prefix of the lines fails, the remaining lines change nothing. |
| `Aliases.FoldLookup` | main.go:173-176 | After a successful fold, a key is bound to the value on its last line, and a key on no line keeps its earlier binding. |
| `EventEngine.Step` | main.go:55-114 | One event keeps the page in [1,8]. |
| `EventEngine.StepKeepsSessionValid` | main.go:59-78 | One event keeps the page in [1,8] and the group a valid token. |
| `EventEngine.StepPaging` | main.go:60-65 | A pressed TrackPrevious above page 1 or TrackNext below page 8 moves one page and reports it. |
| `EventEngine.StepChannelControl` | main.go:66-69 | A slider or knob event, whatever its value, sends the channel message of the current group and page and changes nothing. |
| `EventEngine.StepGroupPress` | main.go:70-78 | A pressed solo, mute or record button selects the group of its letter and bank position and reports it. |
| `EventEngine.StepFallThrough` | main.go:79-105 | An event that none of the first seven tests takes sends the transport message of its element when the switch has a case for it, and does nothing otherwise. |
| `EventEngine.Run` | main.go:55-114 | A sequence of events keeps the page in [1,8] and yields at most one message and one status line per event. |
| `EventEngine.Engine.constructor` | main.go:50-52 | The start-up state is page 1, group "s1" and an empty alias table. |
| `EventEngine.Engine.LoadNames` | main.go:163-177 | Without exactly one argument the table is unchanged. Otherwise the table is the fold of the lines. If a line has no '=', its index is reported and the table holds the fold of the lines before it. |
| `EventEngine.Engine.SendOsc` | main.go:126-132 | The message is the channel message of the current group and page. Its address parses back to (group, type, element + delta + (page-1)*8). Its payload is the nearest integer to value*255/127, and lies in [0,255] for a value up to 127 and in [0,512] for any byte. |
| `EventEngine.Engine.SendTransport` | main.go:101-104 | The message is the transport message of the suffix: payload 255 under a root segment. |
| `EventEngine.Engine.StatusText` | main.go:108-113 | The line built from the group, its alias if any, and the page is the status line of the current state. |
| `EventEngine.Engine.Handle` | main.go:55-114 | The handler's chain of tests gives exactly the new state, message and status line of Step. The session stays valid. |
| `EngineProperties.RunKeepsSessionValid` | main.go:59-78 | From any valid state, including start-up, any event sequence keeps the page in [1,8] and the group a valid token. |
| `EngineProperties.TrackPreviousPaging` | main.go:60-62 | A press of TrackPrevious above page 1 lowers the page by one and reports it. Any other case changes nothing and sends nothing. |
| `EngineProperties.TrackNextPaging` | main.go:63-65 | A press of TrackNext below page 8 raises the page by one and reports it. Any other case changes nothing and sends nothing. |
| `EngineProperties.PageChangesOnlyByPaging` | main.go:60-65 | Only a pressed paging button changes the page, and only by one step. |
| `EngineProperties.ChannelControlSends` | main.go:66-69 | A slider or knob sends one message on every value and changes no state. The message is addressed to the current group and type with a channel in [1,64]. Its payload is the rounded rescaled value. |
| `EngineProperties.ChannelGrowsWithPage` | main.go:127 | On a higher page, the same control reaches a higher channel. |
| `EngineProperties.GroupSelection` | main.go:70-78 | A pressed solo/mute/record button sets the group to its letter and its 1-based bank position, keeps the page, sends nothing and reports. Any other value on these buttons changes nothing. |
| `EngineProperties.ThirdSoloSelectsS3` | main.go:70-72 | The third solo button selects "s3" from any state. |
| `EngineProperties.TransportSends` | main.go:79-105 | A transport button sends `/<suffix>` with payload 255 on every value and changes nothing. |
| `EngineProperties.UnmappedIsIgnored` | main.go:79-105 | An unmapped element sends nothing and changes nothing. |
| `EngineProperties.MessageOrStatus` | main.go:55-114 | No event both sends a message and prints a status line. |
| `EngineProperties.StatusExactlyOnViewChange` | main.go:108-114 | A status line appears exactly when the page changed or a group button was pressed. It shows the new group and page. |
| `EngineProperties.ReselectionStillReports` | main.go:70-78 | Re-pressing the selected group's button changes nothing but still prints a status line. |
| `EngineProperties.SelectionPrefixesNextAddress` | main.go:70-78 | A group selection sets the address prefix of the next slider or knob message. |
| `EngineProperties.RunPair` | main.go:55-124 | For two events, the second sees the state the first left, and their outputs stay in order. |
| `EngineProperties.RepeatedEventRepeatsMessage` | main.go:126-132 | The same event twice from a state it leaves unchanged sends the same message twice. There is no deduplication. |
| `EngineProperties.ScenarioSlider1` | main.go:66-67 | Slider 1 at 127 on page 1 in group "s1" sends `/s1/slider/1` with payload 255. |
| `EngineProperties.SliderSends` | main.go:66-67 | Any slider event sends the slider message of the current group and page and changes nothing. |
| `EngineProperties.ScenarioTrackNext` | main.go:63-65 | TrackNext pressed on page 3 gives page 4 and the line "Group: s1, Page: 4". No message is sent. |
| `EngineProperties.ScenarioPlay` | main.go:96-104 | Play at any value and in any state sends `/play` with payload 255. |

## Left out

- Packet decoding in `handler` (main.go:56-57) is left out. The handler reads `pkg.Data[1]` and `pkg.Data[2]` without a length check, so a packet shorter than three bytes panics with an index out of range and ends the process. It never reads the status byte `Data[0]`, so every message of three or more bytes is handled as an event, not only a control change. The model starts from the two bytes.
- Device handling (`connectToMidi`, main.go:134-161) is left out: it creates the CoreMIDI client and input port and searches for the device by name. These are foreign library calls. An event enters the model as the two bytes `(element, value)`.
- The OSC transport is left out: `osc.NewMessage`, `Append`, `client.Send` and the client set up in `main`. A message is returned as an `(address, payload)` value. A send failure is not observed by the engine in any case.
- The blocking wait in `main` is process plumbing and is left out.
- The debug block (main.go:115-123) only prints, and `debug` is the constant `false`. It is left out.
- The alias file I/O is left out: `os.Args` handling, `os.Open` and its panic on a missing file, and `bufio.Scanner`. `LoadNames` receives the argument list and the file's lines as parameters. It does not model the scanner's own failure on a line longer than its buffer, which silently stops the loop.
- `Engine.LoadNames` models the panic on a line without '=' by stopping the fold and returning that line's index. Ending the process is not modelled.
- `Mapping.Scale` uses the exact integer formula `(510*value + 127) / 254` instead of `float64` arithmetic and `math.Round`. Since 127 is odd, `value * 255 / 127` is never exactly a half, so the two agree for every byte value.
- The `int32` conversion of the payload is not modelled as a wrap-around. The payload is at most 512 for any byte value (`Mapping.ScaleFitsInt32`), so it never wraps.
- Strings are sequences of Unicode characters, not Go's UTF-8 byte strings. `TrimSpace` trims the characters with the Unicode White_Space property, as Go's `unicode.IsSpace` does. Invalid UTF-8 is not modelled.
- Concurrency is left out. The CoreMIDI callback may run on a foreign thread, but the engine is modelled as strictly sequential, one event at a time.

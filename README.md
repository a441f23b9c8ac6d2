# TowedROV shore station: a verified model of its telemetry core

TowedROV_GUI is the shore-side program of a towed underwater vehicle. It
collects telemetry from five places into one shared store, `Data`:

- the vehicle's control computer and the camera computer, each over a TCP
  link that exchanges bracket frames `<key:value:key:value...>`;
- the boat's GPS, inertial unit and echo sounder, over serial ports that it
  first has to discover and fingerprint;
- a video stream over UDP.

From the store it:

- logs CSV files;
- drives the wing actuators from a game pad;
- lets the operator choose a target mode (depth, distance to the seafloor,
  manual wings);
- raises an emergency when a reading says so.

This project models that core once threads, sockets, serial ports, files
and Swing widgets are taken away. The model is one Dafny module per
component:

| module | component |
|---|---|
| `JavaText` | the `String` / `Integer` / `Boolean` operations the code relies on, on ASCII text, with Java's edge cases there |
| `FrameCodec` | the bracket frame: encoding a command, and the two slightly different decoders |
| `SharedData` | the store `Data`: its fields, setters, the bounded depth histories, the channel getters |
| `KeyTables` | the two key tables that turn a decoded frame into setter calls |
| `StreamLink` | `TCPClient`: connection flags, `sendCommand`, `handleDataFromRemote` |
| `Scheduler` | `DataUpdater`: the periodic fetch from both TCP links |
| `PingLink` | `TCPpinger`: the latency probe |
| `SerialIngest` | `ReadSerialData`: the serial reader and its never-cleared map |
| `PortDiscovery` | `SerialDataHandler`: the COM-port search and fingerprinting |
| `ReaderDispatch` | `ComPortFinder`: starting one reader per discovered role |
| `ImageLink` | `UDPServer`: one tick of the video link, photos, photo-mode command |
| `OperatorRules` | `ROVFrame` without its widgets: entry fields, target modes, emergency stop, `update` |
| `CsvLogger` | `LogFileHandler`: the EXIF, ship-position, data and telemetry logs |
| `InputControl` | `InputController` and `RightThumbXListener`: stick mapping, dead zone, angles, actuator commands |

Objects whose fields the program updates in place are classes:
`Data`, `TcpClient`, `Pinger`, `SerialReader`, `PortSearch`,
`ComPortFinder`, `UdpServer`, `RovFrame`, `LogFileHandler`,
`InputController`, `DataUpdater` and `RightThumbXListener`.

- Each class reads its fields back as a value through `View()`.
- Each method states its new state in terms of a pure function of the old
  one.
- The properties are proved about those functions.

Java's `int` wrap-around, truncating division and `Math.round` are
written out. Java's `double` and `float` are both `real`.

## Model

| member | source | states |
|---|---|---|
| JavaText.IndexOf | src/ntnusubsea/gui/TCPClient.java:140-141 | `indexOf` of a present character is a position holding it with no earlier occurrence |
| JavaText.IndexOfAt | src/ntnusubsea/gui/TCPClient.java:140-141 | a position holding the character with none before it is exactly what `indexOf` returns |
| JavaText.ContainsTextAt | src/ntnusubsea/gui/TCPClient.java:132 | `contains` is true whenever the text occurs somewhere |
| JavaText.ContainsTextOnlyAt | src/ntnusubsea/gui/TCPClient.java:132 | `contains` is false when the text occurs at no position |
| JavaText.RemoveChar | src/ntnusubsea/gui/TCPClient.java:143 | `replace("?", "")` leaves exactly the other characters, never the deleted one, and a text without it unchanged |
| JavaText.RemoveCharAppend | src/ntnusubsea/gui/TCPClient.java:143 | deleting a character distributes over concatenation |
| JavaText.SplitAll | src/ntnusubsea/gui/TCPClient.java:145 | the pieces between separators are at least one, separator-free, and made of the text's characters |
| JavaText.SplitJoin | src/ntnusubsea/gui/TCPClient.java:145 | splitting a join of separator-free pieces gives the pieces back |
| JavaText.JoinSplit | src/ntnusubsea/gui/TCPClient.java:145 | joining the pieces of a split gives the text back |
| JavaText.DropTrailingEmpty | src/ntnusubsea/gui/TCPClient.java:145 | the result is a prefix ending in a non-empty piece, and only empty pieces were dropped |
| JavaText.JavaSplit | src/ntnusubsea/gui/TCPClient.java:145 | `split` gives separator-free pieces, one piece for a text without the separator, and no trailing empty piece otherwise |
| JavaText.JavaSplitJoin | src/ntnusubsea/gui/TCPClient.java:145 | `split` inverts a join of separator-free pieces whose last piece is not empty |
| JavaText.NatToStringValue | src/ntnusubsea/gui/ROVFrame.java:2124-2140 | the decimal digits of a natural number denote that number |
| JavaText.NatToString | src/ntnusubsea/gui/ROVFrame.java:2124-2140 | the decimal text of a number is non-empty and all digits |
| JavaText.ParseInt | src/basestation_rov/ReadSerialData.java:207 | `Integer.parseInt` succeeds only on a non-empty text and only with a 32-bit value |
| JavaText.Inc32 | src/ntnusubsea/gui/Data.java:1080-1084 | `x++` on an `int` adds one below the maximum and wraps from the maximum to the minimum, which is the 32-bit wrap of `x + 1` |
| JavaText.Wrap32 | src/inputcontroller/RightThumbXListener.java:61-63 | the wrap lands in 32 bits, is the identity there, and is congruent modulo 2^32 |
| JavaText.ParseIntToString | src/ntnusubsea/gui/ROVFrame.java:2124-2140 | `Integer.parseInt` reads back every 32-bit value `Integer.toString` writes |
| JavaText.ToLowerText | src/ntnusubsea/gui/TCPClient.java:348-353 | lower-casing keeps the length |
| JavaText.ParseBoolean | src/ntnusubsea/gui/TCPClient.java:348-353 | `Boolean.parseBoolean` is true exactly for "true" in any letter case |
| JavaText.ParseBooleanRoundTrip | src/ntnusubsea/gui/UDPServer.java:185 | parsing the text of a boolean gives it back |
| FrameCodec.Encode | src/ntnusubsea/gui/TCPClient.java:121 | the command line is the command between `<` and `>`, two characters longer |
| FrameCodec.Interior | src/ntnusubsea/gui/TCPClient.java:140-142 | a text without `<` or `>` has no frame; one whose `>` all precede the first `<` makes `substring` throw; otherwise the body is the text right after the first `<` up to the first `>` after it |
| FrameCodec.InteriorOfFramed | src/ntnusubsea/gui/TCPClient.java:140-142 | text before the frame without `<`, and anything after the frame, do not disturb the body |
| FrameCodec.InteriorEncode | src/ntnusubsea/gui/TCPClient.java:121-142 | the body of an encoded command is the command |
| FrameCodec.PutPairs | src/ntnusubsea/gui/TCPClient.java:145-147 | the pairing loop finishes exactly on an even token count; the map holds the old keys and the keys of complete pairs, untouched keys keep their values, and every value comes from the tokens |
| FrameCodec.LastPairWins | src/ntnusubsea/gui/TCPClient.java:145-147 | the last pair with a key decides that key's value |
| FrameCodec.PutPairsFlatten | src/ntnusubsea/gui/TCPClient.java:145-147 | pairing the tokens of a list of pairs builds the map the list denotes, later pairs overriding |
| FrameCodec.DecodeReply | src/ntnusubsea/gui/TCPClient.java:136-155 | an unframed reply gives the empty map; a decoded map has no `:` or `?` in any key or value; None where decoding throws |
| FrameCodec.PairBody | src/ntnusubsea/gui/TCPClient.java:143-150 | a body without `:` gives the empty map; otherwise keys and values are `:`-free texts drawn from the body |
| FrameCodec.DecodeReplyOfEncoded | src/ntnusubsea/gui/TCPClient.java:121-147 | decoding the encoded join of plain pairs gives the map they denote when the last value is not empty |
| FrameCodec.EmptyLastValueThrows | src/ntnusubsea/gui/TCPClient.java:144-147 | `<k:>` loses its empty value to `split`, and the odd token count throws |
| FrameCodec.ReplyWithEndBeforeStartThrows | src/ntnusubsea/gui/TCPClient.java:140-142 | a reply that has a `>` but none after its first `<` throws in the second `substring` |
| FrameCodec.SerialChunk | src/basestation_rov/ReadSerialData.java:155-171 | null and unframed chunks are skipped; a decoded chunk's tokens have no trailing empty piece |
| FrameCodec.SerialKeepsQuestionMarks | src/basestation_rov/ReadSerialData.java:164-170 | the serial decoder keeps `?` inside values |
| FrameCodec.PairBodyOfPair | src/ntnusubsea/gui/TCPClient.java:143-147 | a body `k:v` with non-empty `v` pairs into the one-entry map |
| FrameCodec.ReplyDropsQuestionMarks | src/ntnusubsea/gui/TCPClient.java:140-147 | the TCP decoder deletes every `?` from a value before storing it |
| FrameCodec.SerialChunkOfJoin | src/basestation_rov/ReadSerialData.java:164-170 | the serial decoder splits a framed join of separator-free tokens back into those tokens |
| SharedData.InitialInv | src/ntnusubsea/gui/Data.java:161-225 | the store as constructed satisfies the store invariant: eight labels, nine zero channels, bounded histories, 32-bit counters, a byte-sized actuator status |
| SharedData.Newest | src/ntnusubsea/gui/Data.java:1619-1624 | the newest `cap` entries number the smaller of `cap` and the history's length |
| SharedData.Pushed | src/ntnusubsea/gui/Data.java:1619-1624 | one FIFO push grows the history by one until full, then keeps it at capacity; the entry is last and the result is the newest `cap` of history plus entry |
| SharedData.PushedAll | src/ntnusubsea/gui/Data.java:1619-1637 | any series of pushes keeps the history within capacity |
| SharedData.NewestAppend | src/ntnusubsea/gui/Data.java:1619-1624 | trimming before appending changes nothing once the result is trimmed again |
| SharedData.PushedAllKeepsNewest | src/ntnusubsea/gui/Data.java:1619-1637 | after any series of pushes the history is exactly the newest `cap` of everything it has seen |
| SharedData.LeakSet | src/ntnusubsea/gui/Data.java:815-822 | `setLeakStatus` stores the flag; clearing it clears the emergency, raising it leaves the emergency alone; observers notified once |
| SharedData.Performed | src/ntnusubsea/gui/TCPClient.java:319-378 | a setter call fails only on a numeric parse; the boolean setters never fail; `leakAlarm` only ever raises the leak flag, and only on "1" |
| SharedData.PerformedKeepsInv | src/ntnusubsea/gui/TCPClient.java:319-378 | no setter call the tables make breaks the store invariant |
| SharedData.PerformedNeverClearsLeak | src/ntnusubsea/gui/TCPClient.java:356-362 | no setter call the tables make clears a raised leak flag |
| SharedData.ChannelText | src/ntnusubsea/gui/Data.java:491-503 | `getChannel` is null outside 1..8, label and "0.0" for 1..4, the label alone for 5..8 |
| SharedData.ZeroFloatText | src/ntnusubsea/gui/Data.java:495-497 | the only channel value ever stored prints as "0.0" |
| SharedData.Data.constructor | src/ntnusubsea/gui/Data.java:161-225 | a store whose options file cannot be read: default labels, zero channels, the field initialisers, the splash image `ImageIO.read` gives (or none), the invariant |
| SharedData.Data.SetWingAngleSB | src/ntnusubsea/gui/Data.java:618-622 | writes the starboard wing angle, notifies once, nothing else changes |
| SharedData.Data.SetWingAnglePort | src/ntnusubsea/gui/Data.java:598-602 | writes the port wing angle, notifies once, nothing else changes |
| SharedData.Data.SetRollAngle | src/ntnusubsea/gui/Data.java:558-562 | writes the vehicle roll angle, notifies once, nothing else changes |
| SharedData.Data.SetPitchAngle | src/ntnusubsea/gui/Data.java:538-542 | writes the vehicle pitch angle, notifies once, nothing else changes |
| SharedData.Data.SetDepthBeneathRov | src/ntnusubsea/gui/Data.java:736-740 | writes the depth beneath the vehicle, notifies once, nothing else changes |
| SharedData.Data.SetDepthBeneathBoat | src/ntnusubsea/gui/Data.java:756-760 | writes the depth beneath the boat, notifies once, nothing else changes |
| SharedData.Data.SetPressure | src/ntnusubsea/gui/Data.java:859-863 | writes the pressure, notifies once, nothing else changes |
| SharedData.Data.SetOutsideTemp | src/ntnusubsea/gui/Data.java:888-892 | writes the outside temperature, notifies once, nothing else changes |
| SharedData.Data.SetInsideTemp | src/ntnusubsea/gui/Data.java:908-912 | writes the inside temperature, notifies once, nothing else changes |
| SharedData.Data.SetHumidity | src/ntnusubsea/gui/Data.java:928-932 | writes the humidity, notifies once, nothing else changes |
| SharedData.Data.SetSatellites | src/ntnusubsea/gui/Data.java:1229-1233 | writes the satellite count, notifies once, nothing else changes |
| SharedData.Data.SetAltitude | src/ntnusubsea/gui/Data.java:1249-1253 | writes the altitude, notifies once, nothing else changes |
| SharedData.Data.SetGPSAngle | src/ntnusubsea/gui/Data.java:1269-1273 | writes the GPS heading, notifies once, nothing else changes |
| SharedData.Data.SetSpeed | src/ntnusubsea/gui/Data.java:939-943 | writes the speed, notifies once, nothing else changes |
| SharedData.Data.SetLatitude | src/ntnusubsea/gui/Data.java:658-662 | writes the latitude, notifies once, nothing else changes |
| SharedData.Data.SetLongitude | src/ntnusubsea/gui/Data.java:678-682 | writes the longitude, notifies once, nothing else changes |
| SharedData.Data.SetTemperature | src/ntnusubsea/gui/Data.java:839-843 | writes the water temperature, notifies once, nothing else changes |
| SharedData.Data.SetVoltage | src/ntnusubsea/gui/Data.java:1329-1333 | writes the voltage, notifies once, nothing else changes |
| SharedData.Data.SetRoll | src/ntnusubsea/gui/Data.java:1289-1293 | writes the boat roll, notifies once, nothing else changes |
| SharedData.Data.SetPitch | src/ntnusubsea/gui/Data.java:1309-1313 | writes the boat pitch, notifies once, nothing else changes |
| SharedData.Data.SetRovPing | src/ntnusubsea/gui/Data.java:1369-1373 | writes the measured ping, notifies once, nothing else changes |
| SharedData.Data.SetPhotoModeDelay | src/ntnusubsea/gui/Data.java:995-999 | writes the photo delay, notifies once, nothing else changes |
| SharedData.Data.SetPhotoModeDelayFB | src/ntnusubsea/gui/Data.java:1015-1019 | writes the delay feedback, notifies once, nothing else changes |
| SharedData.Data.SetVideoImage | src/ntnusubsea/gui/Data.java:776-781 | writes the frame, null included, notifies once, nothing else changes |
| SharedData.Data.SetStartLogging | src/ntnusubsea/gui/Data.java:1349-1353 | writes the logging switch, notifies once, nothing else changes |
| SharedData.Data.SetActuatorStatus | src/ntnusubsea/gui/Data.java:789-793 | writes the status byte, notifies once, nothing else changes |
| SharedData.Data.SetLeakStatus | src/ntnusubsea/gui/Data.java:815-822 | the store becomes `LeakSet` of the old one |
| SharedData.Data.IncreaseImageNumberByOne | src/ntnusubsea/gui/Data.java:1080-1084 | the image number moves by one with `int` wrap-around, observers notified once |
| SharedData.Data.SetIOLabels | src/ntnusubsea/gui/Data.java:471-482 | the eight labels become exactly the given ones, notifies once |
| SharedData.Data.SetChannel | src/ntnusubsea/gui/Data.java:525-531 | the guard `channel < 0 && channel > 5` never holds: no value is written, observers are still notified |
| SharedData.Data.SetEmergencyMode | src/ntnusubsea/gui/Data.java:1128-1132 | writes the emergency flag without notifying observers |
| SharedData.Data.SetStreaming | src/ntnusubsea/gui/Data.java:1157-1159 | writes the streaming flag without notifying |
| SharedData.Data.SetManualMode | src/ntnusubsea/gui/Data.java:1175-1177 | writes the manual-mode flag without notifying |
| SharedData.Data.SetPhotoMode | src/ntnusubsea/gui/Data.java:977-979 | writes the photo-mode flag without notifying |
| SharedData.Data.SetImagesCleared | src/ntnusubsea/gui/Data.java:1073-1075 | writes the images-cleared flag without notifying |
| SharedData.Data.SetRovReady | src/ntnusubsea/gui/Data.java:1389-1391 | writes the vehicle-ready flag without notifying |
| SharedData.Data.SetI2cError | src/ntnusubsea/gui/Data.java:1407-1409 | writes the I2C error flag without notifying |
| SharedData.Data.SetTempElBoxFront | src/ntnusubsea/gui/Data.java:1554-1556 | writes the front box temperature without notifying |
| SharedData.Data.SetTempElBoxRear | src/ntnusubsea/gui/Data.java:1573-1575 | writes the rear box temperature without notifying |
| SharedData.Data.SetRovDepth | src/ntnusubsea/gui/Data.java:1425-1427 | writes the vehicle depth without notifying |
| SharedData.Data.SetCameraPitchValue | src/ntnusubsea/gui/Data.java:1035-1037 | writes the camera pitch without notifying |
| SharedData.Data.SetTestDepth | src/ntnusubsea/gui/Data.java:1689-1692 | writes the test depth and, through `setRovDepth`, the vehicle depth, without notifying |
| SharedData.Data.UpdateRovDepthDataList | src/ntnusubsea/gui/Data.java:1619-1624 | the vehicle depth history becomes `Pushed` of "time:value" at capacity 260 |
| SharedData.Data.UpdateDepthBeneathBoatDataList | src/ntnusubsea/gui/Data.java:1632-1637 | the boat depth history becomes `Pushed` of "time:value" at capacity 300 |
| SharedData.Data.PutComPort | src/ntnusubsea/gui/Data.java:42 | the public registry maps the port to the role; nothing else changes |
| SharedData.Data.GetChannel | src/ntnusubsea/gui/Data.java:491-503 | null outside 1..8; label and ": 0.0" for 1..4; the label alone for 5..8 |
| SharedData.Data.GetChannelValue | src/ntnusubsea/gui/Data.java:511-517 | its guard never holds, so every channel reads 0.001 |
| SharedData.Data.GetActuatorStatus | src/ntnusubsea/gui/Data.java:801-807 | true exactly when the status byte is 1 |
| SharedData.Data.Perform | src/ntnusubsea/gui/TCPClient.java:319-378 | one table call succeeds exactly when `Performed` does, with that store; a failed parse changes nothing |
| SharedData.Data.WriteReal | src/basestation_rov/ReadSerialData.java:205-274 | the real-valued setter named by the action writes its field, the boat depth negated; the notifying setters notify once |
| KeyTables.PerformedAll | src/basestation_rov/ReadSerialData.java:230-235 | one `case`'s calls keep the invariant and a raised leak; no calls leave the store as it was |
| KeyTables.PerformedKeepsInvIf | src/ntnusubsea/gui/TCPClient.java:319-378 | a successful call keeps the invariant and a raised leak flag |
| KeyTables.ApplyKeys | src/ntnusubsea/gui/TCPClient.java:315-380 | a walk keeps the invariant and a raised leak, and a walk over keys the table ignores changes nothing |
| KeyTables.Step | src/ntnusubsea/gui/TCPClient.java:316-378 | one entry keeps the invariant and a raised leak; a key without a `case` changes nothing |
| KeyTables.ApplyKeysStep | src/ntnusubsea/gui/TCPClient.java:316 | walking one more key is one more step after the earlier walk |
| KeyTables.PerformEach | src/basestation_rov/ReadSerialData.java:230-235 | the method's store and success are those of `PerformedAll` |
| KeyTables.Dispatch | src/ntnusubsea/gui/TCPClient.java:315-380 | the entries are walked in some listing of the map's distinct keys, complete unless a parse throws, and the store is `ApplyKeys` over that listing |
| KeyTables.EnumeratesPrefix | src/ntnusubsea/gui/TCPClient.java:316 | a prefix of a full listing lists distinct keys, all of them only when whole |
| KeyTables.KeysInSomeOrder | src/ntnusubsea/gui/TCPClient.java:316 | the HashMap's iteration lists each key exactly once |
| KeyTables.DispatchKey | src/ntnusubsea/gui/TCPClient.java:317-378 | one turn of the loop is one `Step` |
| KeyTables.LaterDepthKeyWins | src/ntnusubsea/gui/TCPClient.java:333-341 | of two keys that both write `depthBeneathRov`, the one walked last decides the value |
| KeyTables.TcpDepthKeysShareSetter | src/ntnusubsea/gui/TCPClient.java:333-341 | each of the three depth keys calls `setDepthBeneathRov` and nothing else |
| KeyTables.TcpDepthKeysRace | src/ntnusubsea/gui/TCPClient.java:333-341 | two depth keys in one reply: the HashMap's order decides which value stays, either way round |
| KeyTables.ApplyOne | src/ntnusubsea/gui/TCPClient.java:316 | a walk over one key is one step |
| KeyTables.TcpLeakZeroIgnored | src/ntnusubsea/gui/TCPClient.java:356-362 | `leakAlarm:0` changes nothing, because `equals("0")` tests the client object itself |
| KeyTables.LeakZeroStep | src/ntnusubsea/gui/TCPClient.java:356-362 | any step over the one-entry map `leakAlarm:0` leaves the store as it was |
| KeyTables.TcpLeakOneRaises | src/ntnusubsea/gui/TCPClient.java:356-358 | `leakAlarm:1` raises the leak flag and leaves the emergency flag as it was |
| KeyTables.SerialFallThroughWritesTwice | src/basestation_rov/ReadSerialData.java:230-235 | `Depth_of_water_0` has no `break` and stores the negated depth twice, notifying twice |
| KeyTables.SerialBadDepthStops | src/basestation_rov/ReadSerialData.java:232-234 | a depth that does not parse ends the walk before anything is written |
| StreamLink.ReplyHandling | src/ntnusubsea/gui/TCPClient.java:130-158 | a missing line throws; "not ready" or a non-data command is ignored; a data reply is decoded, where a malformed frame throws; decoded keys hold no `?` or `:` |
| StreamLink.Exchanged | src/ntnusubsea/gui/TCPClient.java:130-177 | the exchange keeps the invariant and a raised leak; a throw or an ignored reply leaves the store as it was |
| StreamLink.TcpClient.constructor | src/ntnusubsea/gui/TCPClient.java:56-60 | a new link is down, with no reset error and nothing written |
| StreamLink.TcpClient.Connect | src/ntnusubsea/gui/TCPClient.java:199-211 | success raises the link and clears the reset error; failure changes nothing |
| StreamLink.TcpClient.Disconnect | src/ntnusubsea/gui/TCPClient.java:219-224 | the link is down, the reset error left as it was |
| StreamLink.TcpClient.WaitForConnection | src/ntnusubsea/gui/TCPClient.java:68-80 | the loop stops at the first successful attempt; the link ends up exactly when some attempt succeeds |
| StreamLink.TcpClient.RunStep | src/ntnusubsea/gui/TCPClient.java:86-106 | it reconnects only after a reset error while down; a failed attempt records the error again |
| StreamLink.TcpClient.HandleDataFromRemote | src/ntnusubsea/gui/TCPClient.java:315-380 | the store is the vehicle table's walk over some listing of the map's keys |
| StreamLink.TcpClient.SendCommand | src/ntnusubsea/gui/TCPClient.java:117-179 | when down, nothing is written or changed; when up, the framed command is written, the store is the exchange's, and a throw takes the link down with a reset error |
| StreamLink.NoSpaceNotReady | src/ntnusubsea/gui/TCPClient.java:132 | a reply without a space cannot contain "not ready" |
| StreamLink.UnframedReplyChangesNothing | src/ntnusubsea/gui/TCPClient.java:140-156 | a data reply without a complete frame applies the empty map and changes nothing |
| StreamLink.DanglingValueDisconnects | src/ntnusubsea/gui/TCPClient.java:144-177 | a reply whose last value is empty throws and takes the link down, with the store untouched |
| StreamLink.EncodedReplyApplied | src/ntnusubsea/gui/TCPClient.java:136-156 | a well-formed data reply of plain pairs is applied as the map the pairs denote |
| Scheduler.Requests | src/ntnusubsea/gui/DataUpdater.java:50-76 | a request goes to each connected link and only to those, the vehicle first, and both are data requests |
| Scheduler.Fetch | src/ntnusubsea/gui/DataUpdater.java:52-54 | one link's request keeps the invariant and a raised leak; a link that is down or fails to read leaves the store as it was |
| Scheduler.Fetched | src/ntnusubsea/gui/DataUpdater.java:50-76 | a tick keeps the invariant and a raised leak; with both links down nothing changes; a failed vehicle read still lets the camera's reply through |
| Scheduler.SinglePairApplied | src/ntnusubsea/gui/TCPClient.java:136-156 | a reply carrying one pair is applied as that one entry |
| Scheduler.DepthReplyHandled | src/ntnusubsea/gui/TCPClient.java:136-156 | a reply `<depth:x>` is applied as the entry `depth` |
| Scheduler.DepthEntryStored | src/ntnusubsea/gui/TCPClient.java:363-365 | the entry `depth` stores its parsed value as the vehicle depth, without notifying |
| Scheduler.DepthReplyStored | src/ntnusubsea/gui/DataUpdater.java:52-54 | a link replying `<depth:x>` stores the parsed depth and nothing else |
| Scheduler.CameraDepthOverridesRov | src/ntnusubsea/gui/DataUpdater.java:50-76 | when both links reply with a depth, the camera's, asked second, is the one kept |
| Scheduler.RovDanglingValueStillFetchesCamera | src/ntnusubsea/gui/DataUpdater.java:50-76 | a vehicle reply with an empty last value takes that link down and leaves the store alone, and the camera is still asked |
| Scheduler.DataUpdater.constructor | src/ntnusubsea/gui/DataUpdater.java:39-43 | two distinct links over the one store |
| Scheduler.DataUpdater.Run | src/ntnusubsea/gui/DataUpdater.java:50-76 | the requests made are `Requests`; each link writes its own framed request; the store ends as `Fetched` |
| SerialIngest.Merged | src/basestation_rov/ReadSerialData.java:155-172 | a read never forgets a key, and a read that is not a frame leaves the map as it was |
| SerialIngest.MergedAllKeepsKeys | src/basestation_rov/ReadSerialData.java:37 | a key once received stays in the map for every later walk |
| SerialIngest.OddFrameStoresEarlierPair | src/basestation_rov/ReadSerialData.java:168-171 | a frame with an odd token count stores the pairs before the odd token and is not walked |
| SerialIngest.ReadOnce | src/basestation_rov/ReadSerialData.java:140-192 | one read keeps the store's invariant and a raised leak flag, and leaves the store as it was unless its frame pairs up |
| SerialIngest.ReadAll | src/basestation_rov/ReadSerialData.java:139-193 | a run of reads keeps the store's invariant and a raised leak flag, and leaves the store as it was when no frame in it pairs up |
| SerialIngest.ReadAllSnoc | src/basestation_rov/ReadSerialData.java:139-193 | one more read adds one `ReadOnce` step to the fold and one merge to the map, and keeps the listings fitting |
| SerialIngest.SerialReader.constructor | src/basestation_rov/ReadSerialData.java:49-55 | a new reader has its port closed and an empty map |
| SerialIngest.SerialReader.OpenPort | src/basestation_rov/ReadSerialData.java:130-138 | opening is attempted only while the port is closed; the port is open after exactly when it was or the attempt succeeded |
| SerialIngest.SerialReader.SendIncommingDataToDataHandler | src/basestation_rov/ReadSerialData.java:200-277 | the store is the serial table's walk over some listing of the whole map |
| SerialIngest.SerialReader.ReadStep | src/basestation_rov/ReadSerialData.java:140-192 | the map becomes `Merged`; the store is `ReadOnce`'s: when the frame pairs up, the serial table walked over a listing of distinct keys of the whole map (all of them when the walk completes), otherwise unchanged |
| SerialIngest.SerialReader.ReadData | src/basestation_rov/ReadSerialData.java:118-194 | the port flag ends set exactly when it was or the one opening attempt succeeded; when this call opened its fresh port, the map is `MergedAll` of the chunks and the store is `ReadAll` of them, each walk over a listing that fits its map; otherwise every read throws on the unopened port and neither the map nor the store changes |
| SerialIngest.SerialReader.ReadChunks | src/basestation_rov/ReadSerialData.java:139-193 | on an opened port, the map is `MergedAll` and the store `ReadAll` of the chunks, with fitting listings; the port flag and count are kept |
| PingLink.PingValue | src/ntnusubsea/gui/TCPpinger.java:114-135 | the latency is the elapsed time only after the exact reply `<ping:true>`, otherwise 0.00 |
| PingLink.ProbeIsNotAFrame | src/ntnusubsea/gui/TCPpinger.java:122 | the probe `ping` has no brackets and is no framed command |
| PingLink.Pinger.constructor | src/ntnusubsea/gui/TCPpinger.java:49-53 | a new pinger is down, without streams, with no response read |
| PingLink.Pinger.Connect | src/ntnusubsea/gui/TCPpinger.java:84-94 | success raises the link, clears the reset error and makes the streams; failure changes nothing |
| PingLink.Pinger.Disconnect | src/ntnusubsea/gui/TCPpinger.java:102-107 | the link is down; the reset error and the old streams stay |
| PingLink.Pinger.SendData | src/ntnusubsea/gui/TCPpinger.java:143-156 | the line is written only with streams; a read replaces the static response, a failed read keeps the old one, and that response is returned |
| PingLink.Pinger.GetPing | src/ntnusubsea/gui/TCPpinger.java:114-135 | the probe is written and the ping is `PingValue` of the response; a stale `<ping:true>` still counts after a failed read |
| PingLink.Pinger.Run | src/ntnusubsea/gui/TCPpinger.java:60-73 | while connected, the probe goes out and `rovPing` gets the measured value with one notification; otherwise nothing changes |
| PortDiscovery.AfterProbe | src/basestation_rov/SerialDataHandler.java:107-110 | consuming a probe never lengthens what is left |
| PortDiscovery.ReadingOf | src/basestation_rov/SerialDataHandler.java:107-117 | a throw is a throw; null and unframed texts are silent; a frame's tokens are its body split on `:` |
| PortDiscovery.SameFramingAsReader | src/basestation_rov/SerialDataHandler.java:110-117 | the search frames a read exactly as the serial reader does |
| PortDiscovery.TokenRole | src/basestation_rov/SerialDataHandler.java:118-135 | an unmarked key keeps the role; "EchoSounder" or a body with "<[" wins; below it "ROVDummy"/"Test", then "GPS", then "Roll" |
| PortDiscovery.Fingerprint | src/basestation_rov/SerialDataHandler.java:117-136 | the role after the key tokens is the old role or one of the four device roles |
| PortDiscovery.UnmarkedKeepsRole | src/basestation_rov/SerialDataHandler.java:117-136 | keys that name no device leave the role as it was |
| PortDiscovery.LastMarkWins | src/basestation_rov/SerialDataHandler.java:117-136 | the last key naming a device decides the role |
| PortDiscovery.EchoBodyWins | src/basestation_rov/SerialDataHandler.java:132-135 | a body holding "<[" makes the port an echo sounder as soon as there is a token |
| PortDiscovery.Registered | src/basestation_rov/SerialDataHandler.java:82-87 | every listed COM name is (re)set to "Unknown", other entries kept |
| PortDiscovery.UsableAmongSnoc | src/basestation_rov/SerialDataHandler.java:59-66 | visiting one more new key adds its entry exactly when it is not "Unknown" |
| PortDiscovery.CopiedAmong | src/basestation_rov/SerialDataHandler.java:59-66 | visiting distinct keys copies exactly the usable entries among them |
| PortDiscovery.CountedAmong | src/basestation_rov/SerialDataHandler.java:59-66 | visiting distinct keys counts each usable entry once |
| PortDiscovery.CopiedIsUnion | src/basestation_rov/SerialDataHandler.java:59-66 | after a full listing the registry gains exactly the usable entries, and the count grows by their number |
| PortDiscovery.UnreadableIsSaved | src/basestation_rov/SerialDataHandler.java:145-149 | a port marked "Unreadable" is not "Unknown" and is copied as a found port |
| PortDiscovery.RolesAreSaved | src/basestation_rov/SerialDataHandler.java:59-66 | a fingerprinted port is copied and a port still "Unknown" is not |
| PortDiscovery.RoleFrom | src/basestation_rov/SerialDataHandler.java:110-149 | a silent read keeps the role, a frame gives the old role or a device role, a (second) throw gives "Unreadable" |
| PortDiscovery.ProbeStep | src/basestation_rov/SerialDataHandler.java:98-156 | one entry changes only its own role, keeps the roles within fingerprints, "Unknown" and "Unreadable", never gives back probes or throws, and does nothing once a restart has happened |
| PortDiscovery.ProbePass | src/basestation_rov/SerialDataHandler.java:96-157 | a pass changes only the visited entries, keeps the roles within fingerprints, "Unknown" and "Unreadable", and never gives back probes or throws |
| PortDiscovery.LaterThrowsNeverRestart | src/basestation_rov/SerialDataHandler.java:142-149 | once a throw has been counted, a later throw marks its entry "Unreadable" and the pass runs to its end without restarting |
| PortDiscovery.FreshStep | src/basestation_rov/SerialDataHandler.java:100-149 | an "Unknown" entry gets its own port object and the next probe, and the role that probe's reading gives |
| PortDiscovery.FreshPassRecordsReadings | src/basestation_rov/SerialDataHandler.java:82-157 | after registration, with no first throw, the i-th entry ends with the role the i-th probe gives, and exactly one probe is used per entry |
| PortDiscovery.PortSearch.constructor | src/basestation_rov/SerialDataHandler.java:44-46 | a new search over a registry holding only fingerprinted or unreadable ports has an empty port list, no port object and a zero count |
| PortDiscovery.PortSearch.Register | src/basestation_rov/SerialDataHandler.java:82-87 | the port list becomes `Registered` of the listing |
| PortDiscovery.PortSearch.ClassifyToken | src/basestation_rov/SerialDataHandler.java:118-135 | the entry's role becomes `TokenRole` of the key |
| PortDiscovery.PortSearch.Classify | src/basestation_rov/SerialDataHandler.java:117-136 | the entry's role becomes `Fingerprint` of the frame's keys |
| PortDiscovery.PortSearch.CopyUsable | src/basestation_rov/SerialDataHandler.java:59-66 | the registry gains exactly the usable entries and the count grows by their number |
| PortDiscovery.PortSearch.CopyEntry | src/basestation_rov/SerialDataHandler.java:60-65 | an "Unknown" entry is skipped; any other is copied and counted |
| PortDiscovery.PortSearch.SaveUsableComPorts | src/basestation_rov/SerialDataHandler.java:58-72 | the usable entries reach the registry; no registry key is lost |
| PortDiscovery.PortSearch.ProbeEntry | src/basestation_rov/SerialDataHandler.java:98-156 | a new port object is made only for an "Unknown" entry and the probe is recorded; unless a first throw restarts the search, the roles, port object, probes left and throw count are `ProbeStep`'s and the registry and count are untouched; a second throw marks the entry "Unreadable"; no port or registry key is lost |
| PortDiscovery.PortSearch.OpenAndRead | src/basestation_rov/SerialDataHandler.java:100-110 | the probe goes through the entry's port object, recorded with its baud rate; with no object the call throws before reading |
| PortDiscovery.PortSearch.ProbeAll | src/basestation_rov/SerialDataHandler.java:96-157 | the loop visits every registered entry once; unless a first throw restarts the search, the roles, port object, probes left and throw count are `ProbePass`'s over that order and the registry is untouched; no key is lost and the count never drops |
| PortDiscovery.PortSearch.FindComPorts | src/basestation_rov/SerialDataHandler.java:77-161 | three passes at 115200, 9600 and 9600 baud; every listed COM name ends up in the port list, every usable entry is in the registry with its role, and the registry holds only fingerprinted or unreadable ports |
| PortDiscovery.PortSearch.SearchRun | src/basestation_rov/SerialDataHandler.java:82-159 | one pass registers every listed COM name and leaves every usable entry in the registry with its role, keeping the registry's roles to fingerprints and "Unreadable" |
| ReaderDispatch.StartedNone | src/ntnusubsea/gui/ComPortFinder.java:85-109 | a role holding none of the five names starts nothing |
| ReaderDispatch.ImuOnly | src/ntnusubsea/gui/ComPortFinder.java:85-89 | a role naming only the IMU starts one reader at 115200 baud |
| ReaderDispatch.GpsOnly | src/ntnusubsea/gui/ComPortFinder.java:90-94 | a role naming only the GPS starts one reader at 115200 baud |
| ReaderDispatch.EchoOnly | src/ntnusubsea/gui/ComPortFinder.java:95-99 | a role naming only the echo sounder starts one reader at 4800 baud |
| ReaderDispatch.DummyOnly | src/ntnusubsea/gui/ComPortFinder.java:105-109 | a role naming only the dummy vehicle starts one reader at 115200 baud |
| ReaderDispatch.SearchedRoleStartsOne | src/ntnusubsea/gui/ComPortFinder.java:82-110 | every role the search gives starts exactly one reader at its baud rate |
| ReaderDispatch.ImuStartsOne | src/ntnusubsea/gui/ComPortFinder.java:85-89 | the role "IMU" starts exactly the IMU reader |
| ReaderDispatch.GpsStartsOne | src/ntnusubsea/gui/ComPortFinder.java:90-94 | the role "GPS" starts exactly the GPS reader |
| ReaderDispatch.EchoStartsOne | src/ntnusubsea/gui/ComPortFinder.java:95-99 | the role "EchoSounder" starts exactly the echo sounder reader |
| ReaderDispatch.DummyStartsOne | src/ntnusubsea/gui/ComPortFinder.java:105-109 | the role "ROVDummy" starts exactly the dummy reader |
| ReaderDispatch.UnreadableStartsNone | src/ntnusubsea/gui/ComPortFinder.java:82-110 | a port marked "Unreadable" starts no reader |
| ReaderDispatch.NoStepperFromSearch | src/ntnusubsea/gui/ComPortFinder.java:100-104 | a registry holding only fingerprints and "Unreadable", as the search leaves it, never starts the 128000-baud stepper reader, and starts at most one reader per entry |
| ReaderDispatch.ComPortFinder.constructor | src/ntnusubsea/gui/ComPortFinder.java:40-43 | a new finder has started nothing |
| ReaderDispatch.ComPortFinder.StartIf | src/ntnusubsea/gui/ComPortFinder.java:85-89 | a matching role appends one reader named after it |
| ReaderDispatch.ComPortFinder.StartReaders | src/ntnusubsea/gui/ComPortFinder.java:85-109 | the five independent tests append `Started` for the entry |
| ReaderDispatch.ComPortFinder.StartAll | src/ntnusubsea/gui/ComPortFinder.java:82-110 | every registry entry is visited once and the readers started are `StartedAll` in that order |
| ReaderDispatch.ComPortFinder.Run | src/ntnusubsea/gui/ComPortFinder.java:50-113 | one search, then the readers of every registry entry; the search touches only the registry, and no reader it starts is the 128000-baud stepper reader |
| ImageLink.PhotoModeTextSplits | src/ntnusubsea/gui/UDPServer.java:185 | the photo-mode command splits into its name and a flag that parses back |
| ImageLink.DelayTextSplits | src/ntnusubsea/gui/UDPServer.java:82-98 | the delay command splits into its name and the formatted delay |
| ImageLink.CommandsDiffer | src/ntnusubsea/gui/UDPServer.java:82-119 | the photo-mode, delay and reset commands are told apart by their text |
| ImageLink.ElapsedSeconds | src/ntnusubsea/gui/UDPServer.java:145-151 | the delay feedback is the receive's duration in seconds, fractions kept, as the `double` division gives it; it is over half a second exactly when the frame counts as slow |
| ImageLink.Apply | src/ntnusubsea/gui/UDPServer.java:126-212 | a tick's store writes keep the invariant |
| ImageLink.ApplyTouchesOnly | src/ntnusubsea/gui/UDPServer.java:126-212 | a tick touches only streaming, the delay feedback, the frame and the image count, which moves by at most one with wrap-around |
| ImageLink.StreamCommutes | src/ntnusubsea/gui/UDPServer.java:140-158 | writing the streaming flag commutes with the feedback and frame writes |
| ImageLink.StreamCommutesCount | src/ntnusubsea/gui/UDPServer.java:160-162 | writing the streaming flag commutes with the image count |
| ImageLink.StreamTwice | src/ntnusubsea/gui/UDPServer.java:134-143 | the second streaming write decides |
| ImageLink.StreamSame | src/ntnusubsea/gui/UDPServer.java:142-143 | writing the streaming flag it already has changes nothing |
| ImageLink.ApplyAfterFeed | src/ntnusubsea/gui/UDPServer.java:151 | the feedback write followed by the rest of a tick's writes is the whole tick |
| ImageLink.ApplyIgnoresStreaming | src/ntnusubsea/gui/UDPServer.java:142-143 | the streaming flag before a tick does not matter |
| ImageLink.AfterDecode | src/ntnusubsea/gui/UDPServer.java:156-190 | after the decode no further feedback is written |
| ImageLink.ArrivedComposes | src/ntnusubsea/gui/UDPServer.java:144-190 | the receive's writes and then the decode's make up the arrival |
| ImageLink.DeliveredFacts | src/ntnusubsea/gui/UDPServer.java:165-190 | a delivered frame saves at most one photo and sends the photo command only on a change |
| ImageLink.ReceivingLink | src/ntnusubsea/gui/UDPServer.java:137-211 | after the clock check the link flag and the streaming flag agree, and socket and timer stay |
| ImageLink.ReceivingToggle | src/ntnusubsea/gui/UDPServer.java:184-190 | at most one photo command, for the current mode, to the sender, on a change only |
| ImageLink.ReceivingSaved | src/ntnusubsea/gui/UDPServer.java:165-182 | at most one photo is saved, from the frame just received, numbering kept |
| ImageLink.ReceivingCounted | src/ntnusubsea/gui/UDPServer.java:160-162 | the image count moves exactly on a decoded frame slower than 500 ms while the last mode sent was on |
| ImageLink.StepCases | src/ntnusubsea/gui/UDPServer.java:126-212 | a tick stops at the clock check and drops the link, or receives in the ready state |
| ImageLink.StreamingFollowsLink | src/ntnusubsea/gui/UDPServer.java:126-212 | every tick ends with the link flag and the store's streaming flag agreeing |
| ImageLink.TimerOnlyOnRecycle | src/ntnusubsea/gui/UDPServer.java:128-135 | the timer moves only when the socket is recycled, to that tick's clock, and the socket is then open |
| ImageLink.ToggleOnChangeOnly | src/ntnusubsea/gui/UDPServer.java:184-190 | at most one datagram per tick, for the mode, to the sender, only on a change; `lastPhotoMode` changes exactly with a send |
| ImageLink.NoRepeatedToggle | src/ntnusubsea/gui/UDPServer.java:184-190 | once the command for a mode was sent, the next tick sends nothing while the mode stays |
| ImageLink.StepSavesOnce | src/ntnusubsea/gui/UDPServer.java:165-182 | a tick keeps the photo numbering and adds at most one photo, from a decoded image, in photo mode, into the directory |
| ImageLink.ImageCountOnSlowFrames | src/ntnusubsea/gui/UDPServer.java:160-162 | the image count moves exactly on a decoded frame slower than 500 ms while the last mode sent was on |
| ImageLink.StepsKeepNumbering | src/ntnusubsea/gui/UDPServer.java:170-171 | over any run of ticks the photos stay numbered 1, 2, 3, ... as the `int` counter counts, wrapping past its maximum |
| ImageLink.NoSocketNeverStreams | src/ntnusubsea/gui/UDPServer.java:64-77 | a server whose socket was never made never recovers: every tick only drops streaming |
| ImageLink.UdpServer.constructor | src/ntnusubsea/gui/UDPServer.java:64-77 | the socket binds or not; the timer starts at the clock |
| ImageLink.UdpServer.Fail | src/ntnusubsea/gui/UDPServer.java:198-211 | the link is down and the store stops streaming |
| ImageLink.UdpServer.Send | src/ntnusubsea/gui/UDPServer.java:82-98 | a datagram goes to the last sender; a missing address or socket, or a failed send, sends nothing |
| ImageLink.UdpServer.SendDelayCommand | src/ntnusubsea/gui/UDPServer.java:82-98 | the store's photo delay is sent to the camera |
| ImageLink.UdpServer.SendResetImgCommand | src/ntnusubsea/gui/UDPServer.java:103-119 | the reset command is sent to the camera |
| ImageLink.UdpServer.Save | src/ntnusubsea/gui/UDPServer.java:165-182 | the state becomes `SavePhoto` |
| ImageLink.UdpServer.SendToggle | src/ntnusubsea/gui/UDPServer.java:184-190 | the state becomes `Toggle` |
| ImageLink.UdpServer.Deliver | src/ntnusubsea/gui/UDPServer.java:157-190 | server and store become `Delivered` with the show and count writes |
| ImageLink.UdpServer.Decode | src/ntnusubsea/gui/UDPServer.java:155-190 | server and store become `AfterDecode` |
| ImageLink.UdpServer.Arrive | src/ntnusubsea/gui/UDPServer.java:144-190 | server and store become `Arrived` |
| ImageLink.UdpServer.Note | src/ntnusubsea/gui/UDPServer.java:147-150 | the reply address and the delay feedback are written |
| ImageLink.UdpServer.Receive | src/ntnusubsea/gui/UDPServer.java:137-211 | server and store become `Receiving` |
| ImageLink.UdpServer.Enter | src/ntnusubsea/gui/UDPServer.java:128-141 | the clock check recycles the socket past the timer, then sets the link and streaming flags |
| ImageLink.UdpServer.Run | src/ntnusubsea/gui/UDPServer.java:126-212 | server and store become `Step` |
| OperatorRules.IsInteger | src/ntnusubsea/gui/ROVFrame.java:2491-2512 | `isInteger` is true exactly for an optional '-' followed by one or more digits |
| OperatorRules.IntegerTextParses | src/ntnusubsea/gui/ROVFrame.java:2124-2140 | an integer text is read by `parseInt` as its value exactly when that fits 32 bits |
| OperatorRules.ParsedIsIntegerUnlessPlus | src/ntnusubsea/gui/ROVFrame.java:2491-2512 | of the texts `parseInt` reads, `isInteger` refuses exactly those with a leading '+' |
| OperatorRules.IntToStringIsInteger | src/ntnusubsea/gui/ROVFrame.java:2491-2512 | `Integer.toString` always gives an accepted text denoting the same number |
| OperatorRules.ClampInt | src/ntnusubsea/gui/ROVFrame.java:2124-2140 | the camera offset is clamped into its range, unchanged inside it |
| OperatorRules.ClampReal | src/ntnusubsea/gui/ROVFrame.java:2179-2192 | the delay is clamped into its range, unchanged inside it |
| OperatorRules.ModeSelected | src/ntnusubsea/gui/ROVFrame.java:2093-2112 | re-selecting the mode does nothing; a new mode leaves manual control and sends the mode and the distance |
| OperatorRules.ManualToggled | src/ntnusubsea/gui/ROVFrame.java:2233-2254 | from another mode it enters manual control and says so; from manual mode it presses the depth button and levels the wings |
| OperatorRules.ReselectingIsIdle | src/ntnusubsea/gui/ROVFrame.java:1827-1848 | pressing the depth or seafloor button twice is pressing it once |
| OperatorRules.ManualToggleTwice | src/ntnusubsea/gui/ROVFrame.java:2233-2254 | two manual presses return to depth mode without manual control, after mode 2, mode 0 with the depth, and level wings |
| OperatorRules.EmergencyStopOutcome | src/ntnusubsea/gui/ROVFrame.java:1870-1885 | the stop always ends raised with the surfacing command last, leaving or entering manual control |
| OperatorRules.PitchEntered | src/ntnusubsea/gui/ROVFrame.java:2119-2155 | a failed commit or a `parseInt` overflow changes nothing; otherwise the pitch, new or old, is clamped into [-10, 10] and written to the store |
| OperatorRules.PlusSignPitchIgnored | src/ntnusubsea/gui/ROVFrame.java:2124-2140 | "+5" parses but is refused, so the pitch stays where it was |
| OperatorRules.DelaySet | src/ntnusubsea/gui/ROVFrame.java:2176-2196 | a parsed delay is clamped into [0, 99] in the window and the store; anything else changes nothing |
| OperatorRules.DistanceEntered | src/ntnusubsea/gui/ROVFrame.java:2373-2412 | the emergency flag is cleared first; exactly a distance in [0, 50] is sent |
| OperatorRules.WingAngleEntered | src/ntnusubsea/gui/ROVFrame.java:2414-2449 | exactly an angle in [-30, 30] is sent; the store is untouched |
| OperatorRules.DistanceAfterStopClearsEmergency | src/ntnusubsea/gui/ROVFrame.java:2373-2412 | a distance typed after an emergency stop lowers the emergency flag again |
| OperatorRules.Updated | src/ntnusubsea/gui/ROVFrame.java:2670-2794 | `update` raises the flag exactly when it was raised or a trigger holds; only a raised flag with the alarm idle touches the window |
| OperatorRules.EmergencyUpdateFromManual | src/ntnusubsea/gui/ROVFrame.java:2680-2691 | from manual mode an emergency leaves the window in depth mode while mode 2 was the last mode sent |
| OperatorRules.RaisedFour | src/ntnusubsea/gui/ROVFrame.java:2716-2772 | the four checks raise the flag once when any holds, and touch nothing else |
| OperatorRules.ManualModeCommandText | src/ntnusubsea/gui/ROVFrame.java:2687 | the mode-2 command the window sends is the very text `update` sends |
| OperatorRules.RovFrame.constructor | src/ntnusubsea/gui/ROVFrame.java:55-72 | depth mode, pitch 0, delay 1.0, nothing sent |
| OperatorRules.RovFrame.Send | src/ntnusubsea/gui/ROVFrame.java:2093-2112 | one command is appended to those handed to the vehicle link |
| OperatorRules.RovFrame.SelectMode | src/ntnusubsea/gui/ROVFrame.java:2093-2112 | window and store become `ModeSelected` |
| OperatorRules.RovFrame.DepthModeButtonPressed | src/ntnusubsea/gui/ROVFrame.java:2093-2112 | window and store become `DepthSelected` |
| OperatorRules.RovFrame.SeafloorModeButtonPressed | src/ntnusubsea/gui/ROVFrame.java:1827-1848 | window and store become `SeafloorSelected` |
| OperatorRules.RovFrame.ManualControlButtonPressed | src/ntnusubsea/gui/ROVFrame.java:2233-2254 | window and store become `ManualToggled` |
| OperatorRules.RovFrame.EmergencyStopButtonPressed | src/ntnusubsea/gui/ROVFrame.java:1870-1885 | window and store become `EmergencyStopped` |
| OperatorRules.RovFrame.CameraOffsetEntered | src/ntnusubsea/gui/ROVFrame.java:2119-2155 | window and store become `PitchEntered` |
| OperatorRules.RovFrame.DelayEntered | src/ntnusubsea/gui/ROVFrame.java:2176-2196 | window and store become `DelaySet`, then the delay goes to the camera |
| OperatorRules.RovFrame.TargetDistanceEntered | src/ntnusubsea/gui/ROVFrame.java:2373-2412 | window and store become `DistanceEntered` |
| OperatorRules.RovFrame.WingAngleTextEntered | src/ntnusubsea/gui/ROVFrame.java:2414-2449 | window and store become `WingAngleEntered` |
| OperatorRules.RovFrame.Update | src/ntnusubsea/gui/ROVFrame.java:2670-2794 | window and store become `Updated` |
| OperatorRules.RovFrame.RaiseOnTriggers | src/ntnusubsea/gui/ROVFrame.java:2716-2772 | the flag is raised exactly when a trigger holds |
| OperatorRules.RovFrame.RaiseIf | src/ntnusubsea/gui/ROVFrame.java:2716-2719 | one check raises the flag when it holds |
| CsvLogger.DataHeaderJoinsColumns | src/basestation_rov/LogFileHandler.java:152-157 | the data header is its nineteen columns joined by commas |
| CsvLogger.DataColumnsHaveNoComma | src/basestation_rov/LogFileHandler.java:152-157 | there are nineteen columns and none holds a comma |
| CsvLogger.DataHeaderSplits | src/basestation_rov/LogFileHandler.java:152-157 | read back field by field, the header gives its nineteen columns |
| CsvLogger.Appended | src/basestation_rov/LogFileHandler.java:337-340 | a live writer gets a line break and the row; a null writer throws and nothing is written |
| CsvLogger.Logged | src/basestation_rov/LogFileHandler.java:125-182 | the logging half keeps the three counters within 32 bits |
| CsvLogger.Ran | src/basestation_rov/LogFileHandler.java:97-183 | a run keeps the three counters within 32 bits |
| CsvLogger.NotLoggingWritesNoRows | src/basestation_rov/LogFileHandler.java:180-182 | with logging off no log file changes, no point number moves, and set-up is to be redone |
| CsvLogger.LoggingAppendsOneRowEach | src/basestation_rov/LogFileHandler.java:125-178 | with logging on each log gets exactly its one row, each point number moves only when its row was written, and the telemetry row is kept |
| CsvLogger.FirstRunWritesHeaderThenRow | src/basestation_rov/LogFileHandler.java:125-178 | a first successful set-up writes each header and then the first row, numbered 1 |
| CsvLogger.ExifRedoneEveryRun | src/basestation_rov/LogFileHandler.java:98-123 | while images are cleared the EXIF file is recreated on every run and at most one row follows |
| CsvLogger.PointNumbersOnlyStep | src/basestation_rov/LogFileHandler.java:172-178 | point numbers move by one with wrap-around, exactly when logging is on and the file exists |
| CsvLogger.ExifCatchUpByOne | src/basestation_rov/LogFileHandler.java:117-123 | an image number other than the last seen moves the count by exactly one and logs one row |
| CsvLogger.ExifRowIsPreviousTelemetry | src/basestation_rov/LogFileHandler.java:255-265 | the EXIF row is the previous run's telemetry row (four values under three columns), not the position kept |
| CsvLogger.NumberHasNoComma | src/basestation_rov/LogFileHandler.java:295 | a point number's text holds no comma |
| CsvLogger.DataRowFields | src/basestation_rov/LogFileHandler.java:295-312 | a data row reads back as its eighteen values, the trailing comma's empty field dropped by `split` |
| CsvLogger.DataColumnsNamed | src/basestation_rov/LogFileHandler.java:152-157 | columns 11, 12 and 18 are "Emergency", " outsideTemp" and " LeakDetection" |
| CsvLogger.DataRowMisalignsHeader | src/basestation_rov/LogFileHandler.java:152-157 | the row has no emergency value: from column 11 on each value sits one column left of its header |
| CsvLogger.LogFileHandler.constructor | src/basestation_rov/LogFileHandler.java:90-92 | the logger starts as `InitialLogger` |
| CsvLogger.LogFileHandler.Run | src/basestation_rov/LogFileHandler.java:97-183 | the logger becomes `Ran`; the store's images-cleared flag is set exactly when the EXIF file was made |
| CsvLogger.LogFileHandler.PrepareExif | src/basestation_rov/LogFileHandler.java:98-116 | the logger becomes `ExifPrepared` |
| CsvLogger.LogFileHandler.CatchUpExif | src/basestation_rov/LogFileHandler.java:117-124 | the logger becomes `ExifCaughtUp` |
| CsvLogger.LogFileHandler.LogExifData | src/basestation_rov/LogFileHandler.java:255-265 | the logger becomes `ExifLogged` |
| CsvLogger.LogFileHandler.LogRows | src/basestation_rov/LogFileHandler.java:125-182 | the logger becomes `Logged` |
| CsvLogger.LogFileHandler.SetUpLogs | src/basestation_rov/LogFileHandler.java:125-171 | the logger becomes `LogsSetUp` |
| CsvLogger.LogFileHandler.LogShipPosition | src/basestation_rov/LogFileHandler.java:354-369 | the logger becomes `ShipPosLogged` |
| CsvLogger.LogFileHandler.LogData | src/basestation_rov/LogFileHandler.java:292-343 | the logger becomes `DataLogged` |
| CsvLogger.LogFileHandler.LogTelementry | src/basestation_rov/LogFileHandler.java:270-286 | the logger becomes `TelementryLogged` |
| InputControl.JavaDiv | src/inputcontroller/RightThumbXListener.java:61-63 | Java's `int` division stays within 32 bits |
| InputControl.JavaDivNonPositive | src/inputcontroller/RightThumbXListener.java:61-63 | for a non-positive numerator, Java's quotient is minus the quotient of the magnitudes |
| InputControl.MappedInRange | src/inputcontroller/RightThumbXListener.java:43 | within the pad's range no step overflows, and the map is the truncated linear formula |
| InputControl.MappedEnds | src/inputcontroller/RightThumbXListener.java:43 | the ends map to +126 and -126 and the centre to 0 |
| InputControl.MappedBoundedAndNonIncreasing | src/inputcontroller/RightThumbXListener.java:43 | the mapped value stays within ±126 and never increases as the raw value grows |
| InputControl.MappedTruncates | src/inputcontroller/RightThumbXListener.java:61-63 | truncation maps 32767 to -125 where floor division would give -126 |
| InputControl.DeadZone | src/inputcontroller/RightThumbXListener.java:44-46 | values strictly between -17 and 12 become 0, others pass |
| InputControl.RightThumbXZones | src/inputcontroller/RightThumbXListener.java:42-49 | the output is within ±126 and is 0 exactly inside the off-centre dead zone |
| InputControl.DegreeOutsideDeadZone | src/inputcontroller/InputController.java:123-132 | outside the dead zone the angle lies in [0, 360) and rounds into [0, 360] |
| InputControl.DegreeInsideDeadZone | src/inputcontroller/InputController.java:123-132 | inside the dead zone the angle is the previous one |
| InputControl.AngleForGUIRange | src/inputcontroller/InputController.java:228-239 | the display angle lies in [0, 359] and is the angle shifted back 15 degrees round the circle |
| InputControl.TickIdleOutsideManual | src/inputcontroller/InputController.java:79 | without the pad enabled and manual mode on, a pass sends and changes nothing |
| InputControl.TickSendsOnChange | src/inputcontroller/InputController.java:93-102 | each actuator command is sent exactly when the stick moved since its last command, both with the stick's value |
| InputControl.TickTwiceSendsOnce | src/inputcontroller/InputController.java:77-104 | a second pass with the stick where it was sends nothing more |
| InputControl.ActuatorCommandsShareValue | src/inputcontroller/InputController.java:95-102 | the PS and SB commands differ but carry the same value text |
| InputControl.InputController.constructor | src/inputcontroller/InputController.java:29-55 | every stick value, angle and remembered command value is 0, nothing sent |
| InputControl.InputController.Tick | src/inputcontroller/InputController.java:77-104 | the controller becomes `Ticked` under the store's pad and manual flags |
| InputControl.InputController.SetBtnLy | src/inputcontroller/InputController.java:148-152 | the stick value is stored, with a hundredth of it for the display |
| InputControl.InputController.SetBtnRx | src/inputcontroller/InputController.java:204-207 | the right stick's x is stored |
| InputControl.InputController.SetBtnRy | src/inputcontroller/InputController.java:186-188 | the right stick's y is stored |
| InputControl.InputController.FindDegree | src/inputcontroller/InputController.java:123-132 | the previous value becomes `DegreeValue`, and it is returned rounded |
| InputControl.InputController.GetAngle | src/inputcontroller/InputController.java:214-221 | the rounded right-stick angle becomes both the angle and the last angle |
| InputControl.InputController.GetAngleForGUI | src/inputcontroller/InputController.java:228-239 | the same angle, shifted for the display |
| InputControl.RightThumbXListener.constructor | src/inputcontroller/RightThumbXListener.java:32-34 | the listener feeds the given controller |
| InputControl.RightThumbXListener.Value | src/inputcontroller/RightThumbXListener.java:42-49 | the controller's right-stick x becomes `RightThumbX` of the raw reading |

## Left out

- Threads, `Observable` fan-out and `synchronized`: each `run` body is one pass, and the model counts notifications instead of calling observers.
- The endless `run` loops and their sleeps: one pass, or a finite sequence of outcomes, is modelled.
- Sockets, serial ports, files, `ImageIO`, clocks and the photo directory: they become parameters (reply lines, chunks, probe outcomes, tick outcomes, elapsed times).
- `Double.parseDouble`, `Float.parseFloat` and `String.valueOf(double)`: these are the abstract `Parsers` record and the `show` function. Float and double precision are not modelled; both are `real`.
- `Math.atan2` is a parameter (the direction in degrees). `Math.round` is modelled for non-NaN values only.
- The Swing widgets, labels, colours and icons of `ROVFrame`, and the `doClick` calls, which assume the buttons are enabled.
- `EchoSounderFrame`, `ImageUtils`, `VideoEncoder`, `FtpClient`, `ImagePanel`, `NTNUSubseaGUI`, the calibration classes and `Sounder`, apart from whether the alarm thread is alive. `LeftThumbYListener` and the other pad listeners are not part of this model.
- The options file read by `Data`'s constructor: the model starts from the defaults used when that file cannot be read.
- PortDiscovery.PortSearch.FindComPorts: the nested restarts from the exception handler and from `saveUsableComPorts` are bounded by a `fuel` count; a search that would recurse further is cut off there.
- The second `case "Depth_below_Transducer_M"` of `ReadSerialData` is a duplicate label, which Java rejects; the model takes the first label.
- OperatorRules.RovFrame.Send: commands to the vehicle are recorded in `sentToRov` rather than run through `TcpClient.SendCommand`, whose behaviour is modelled on its own.
- InputControl.InputController.Tick: the actuator commands are recorded in `sent` rather than sent over the vehicle link.
- The `ClassCastException` branches of the `Map.Entry` casts can never fire and are not modelled. The exception a failed `Sounder` start would throw is not modelled either.
- CsvLogger.LogFileHandler.Run: creating the three logs either fully succeeds or fully fails; a failure midway through the set-up is not modelled.
- CsvLogger.Readings: the values in the rows are opaque texts, not tied to the store's fields. `getTargetDistance` is one of them.
- CsvLogger.LogFileHandler.LogData: each writer keeps only the text of the current file. Files from earlier set-ups are not kept.
- InputControl.InputController.FindDegree: the static `lastVal` and `lastAngle` are modelled as fields of the one controller.
- PingLink.Pinger.constructor: the static `serverResponse` is modelled as a field of each pinger, cleared when it is made; Java shares one value among all pingers and never clears it.
- SharedData.Data.constructor: only an `IOException` from reading the splash image is caught and modelled (as None). A missing TowedROV.jpg makes `ImageIO.read(null)` throw an `IllegalArgumentException`, which escapes the constructor; the model has no case for that.
- ParseInt: only ASCII digits are accepted. Java's `Integer.parseInt` also accepts the other Unicode decimal digits (`"١٢"` is 12 there, None here), which matters for the serial readings.

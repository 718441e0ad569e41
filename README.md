# homematic-homekit, modelled in Dafny

A model of a bridge between a Homematic CCU hub and HomeKit accessories. The
hub speaks JSON-RPC over HTTP and must be polled. HomeKit expects accessories
that push state. The model covers three parts:

- The hub client (`hm/hm.go`, module `Hm`). It builds the JSON-RPC envelope
  (`jsonrpc` "1.1", method, params). It adds `_session_id_` to the caller's own
  params map when a session key exists. It decides a call's outcome from what
  the hub answered. It also covers login, renewal, logout, room listing and
  value reads. The directory builder turns the hub's device/channel topology
  into switch and blind devices, with their rooms. Each capability has its own
  write and read rule.
- The device record (`hm/device.go`, module `HmDevice`). It holds the
  `DeviceType` tags and the `String()` label.
- The bridge program (`hmhk.go`, module `Bridge`). It reads the configuration
  from the environment and maps devices to accessories. Each accessory has
  reconciliation handlers: remote update and refresh, for a switch's `On` and a
  blind's `CurrentPosition`/`TargetPosition`.

Decimal rendering (`strconv.Itoa`, and `%v` of an `int`) is in module
`Decimal`. Its parser is the partner that proves the written values can be read
back. `Wrappers` holds `Option` and `Result`.

### How the model stands in for I/O

- The HTTP POST and the JSON decoding act as an oracle. Each call takes, as a
  parameter, the `Exchange` the hub answered with. An exchange is one of:
  - the transport failed;
  - the envelope was malformed;
  - an envelope arrived, whose `error` member may be null and whose `result`
    member is null, decodes to the target type, or does not decode.

  A result that decodes is stored into the caller's target before `error` is
  checked (hm/hm.go:93-99). So a login whose envelope carries both an error and
  a decodable result overwrites the session key and still fails. A JSON null
  leaves the target untouched.
- The caller's `map[string]string` is the class `ParamMap`, because `do`
  writes the session id into that very map.
- `strconv.ParseFloat` is the function parameter `parse`. The blind's read
  conversion `int(v*100)` in float64 arithmetic is the parameter `scale`.
- The renewal goroutine is represented only by the counter
  `Conn.renewalLoops`, which a successful login increments. One renewal tick
  is `Conn.Renew`.
- Accessory characteristics are plain fields. Each refresh signal an accessory
  asks for is appended to `triggers`: the immediate one injected at
  construction, and the delayed ones after writes.

### Behaviour of the code worth knowing

- A room listing that reports an error can still annotate devices. `Rooms`
  returns whatever decoded together with the error (hm/hm.go:118-122), and
  `Devices` only logs that error and goes on with those rooms
  (hm/hm.go:144-147). Rooms are all empty only when nothing decoded, which is
  the case `Hm.DirectoryWithoutRooms` covers.
- The switch read returns 0 on a failed call (hm/hm.go:210-212). After a failed
  parse it uses the number `strconv.ParseFloat` returned with the error. That
  number is 0 for a syntax error but ±Inf for an out-of-range number, so the
  read gives 1. The model leaves that number to `parse`.
- The refresh loops keep no state of their own (hmhk.go:107-117, 146-160). A
  refresh only overwrites the displayed value when the read succeeded; there is
  no notion of a write awaiting confirmation.
- The ticker relay in hm/ticker.go:11-13 blocks when its one-slot channel is
  full; it does not drop ticks. This is not modelled (see below).

## Model

| member | source | states |
|---|---|---|
| `HmDevice.Ordinal` | hm/device.go:7-11 | tags are numbered 0..2, and 0 is exactly `DeviceTypeNone` |
| `HmDevice.FromOrdinal` | hm/device.go:5-11 | exactly the integers 0, 1, 2 name a tag, and the tag named has that number |
| `HmDevice.OrdinalRoundTrip` | hm/device.go:7-11 | None, Switch, Blind are 0, 1, 2 and the numbering is one-to-one |
| `HmDevice.ZeroDeviceHasNoType` | hm/device.go:8-19 | the zero `Device` has type `DeviceTypeNone` (0) |
| `HmDevice.Label` | hm/device.go:21-23 | `String()` is total; it is the address, " (", the room, ")", so an empty room gives `"<address> ()"` |
| `HmDevice.LabelRoundTrip` | hm/device.go:21-23 | for an address without '(' the label splits back into address and room |
| `Decimal.Itoa` | hm/hm.go:165 | the shortest decimal form: a '-' exactly for negative numbers followed by at least one digit, digits only otherwise, "0" exactly for zero, and no leading zero |
| `Decimal.ItoaRoundTrip` | hm/hm.go:165 | parsing `Itoa(n)` gives back n |
| `Decimal.ItoaInjective` | hmhk.go:51 | distinct integers render differently |
| `Hm.WithSession` | hm/hm.go:76-78 | with a non-empty key the params gain `_session_id_ ↦ key`, overwriting any entry, and keep every other entry; with an empty key they are unchanged |
| `Hm.CallError` | hm/hm.go:83-100 | success iff transport, envelope and result decoding all succeed and `error` is null; a result-decode failure is reported even when `error` is set; a non-null `error` otherwise fails |
| `Hm.StoredResult` | hm/hm.go:93 | the target receives the result exactly when it decoded to a value, whatever `error` says |
| `Hm.SuccessMeansDecoded` | hm/hm.go:83-100 | a successful call had a well-formed envelope with null `error`, and its target holds the result |
| `Hm.ErrorIndicatorFails` | hm/hm.go:93-99 | a non-null `error` always fails the call, yet a decoded result has already been stored |
| `Hm.Call` | hm/hm.go:71-78 | the posted envelope has the URL, version "1.1" and the given method; with a non-empty key its params are exactly the caller's keys plus `_session_id_ ↦ key`, every other entry kept; with an empty key they are the caller's params |
| `Hm.LoginParams` | hm/hm.go:48-51 | the login params are exactly `username` and `password` with the given credentials |
| `Hm.LoginCarriesNoSession` | hm/hm.go:35-51 | the first login sends exactly username and password and no session id |
| `Hm.GoDiv100` | hm/hm.go:185 | Go's `v/100`: the quotient rounded toward zero, for either sign |
| `Hm.ReadWriteShareValueKey` | hm/hm.go:155-192 | a device's write and read name the same address and value key, which is `STATE` exactly for a switch and `LEVEL` exactly for a blind |
| `Hm.WireNumber` | hm/hm.go:158-187 | a switch sends v unclamped; a blind sends `GoDiv100(v)`, v/100 toward zero for every v, so 0..99 send 0 and 100 sends 1 |
| `Hm.WireValue` | hm/hm.go:158-187 | the sent string is the shortest decimal (`Itoa`) of v for a switch and of v/100 toward zero for a blind, so it parses back to that number; a blind sends "0" for 0..99 and "1" for 100 |
| `Hm.SetValueParams` | hm/hm.go:160-186 | the write's params are exactly interface "BidCos-RF", the device's address, its value key, type "string" and a value that is the shortest decimal (`Itoa`) of the sent number and parses back to it |
| `Hm.GetValueParams` | hm/hm.go:204-208 | the read's params are exactly interface "BidCos-RF", the address and the value key |
| `Hm.SwitchLevel` | hm/hm.go:169-175 | the switch read is 0 iff the hub's number is 0, and 1 otherwise |
| `Hm.SwitchWriteRead` | hm/hm.go:158-175 | a switch written v, with a hub that reports the written number, reads 0 for 0 and 1 otherwise; 0 and 1 read back exactly |
| `Hm.HubNumber` | hm/hm.go:203-215 | `value` returns 0 and the call's error when the call fails; otherwise the parse of the answer, with "" for a null answer, and a parse failure is reported as `NotANumber` with the parser's error |
| `Hm.DeviceReading` | hm/hm.go:169-192 | a read passes the error through; a switch gives `SwitchLevel` of the number, a blind the scaled number |
| `Hm.SwitchReadOnCallFailure` | hm/hm.go:169-175 | a switch read whose call failed returns 0 with that error |
| `Hm.AssociateRoom` | hm/hm.go:217-226 | the name of the first room, in list order, that lists the channel id; "" when none does, including an empty list |
| `Hm.ChannelDevice` | hm/hm.go:152-196 | a supported channel becomes a device with its address, its room and the matching tag |
| `Hm.Entries` | hm/hm.go:151-198 | a channel list gives at most one device per channel, each a switch or a blind |
| `Hm.Directory` | hm/hm.go:150-199 | the topology gives only switches and blinds |
| `Hm.EntriesAppend` | hm/hm.go:151-198 | channel order is preserved: entries of a + b are those of a then those of b |
| `Hm.EntriesSingle` | hm/hm.go:155-197 | one channel gives its device if SWITCH or BLIND, otherwise nothing |
| `Hm.DirectoryAppend` | hm/hm.go:150-199 | device order is preserved: directory of a + b is that of a then that of b |
| `Hm.DirectorySingle` | hm/hm.go:150-199 | one hub device contributes exactly its channels' entries |
| `Hm.EntriesShape` | hm/hm.go:151-198 | one entry per supported channel (no de-duplication); every entry is a switch or blind for a supported channel of the list; every supported channel appears |
| `Hm.DirectoryWithoutRooms` | hm/hm.go:144-196 | with no room data every device's room is "" |
| `Hm.Conn.constructor` | hm/hm.go:36-39 | a new connection has the host, an empty session key and no renewal loop |
| `Hm.Conn.RpcUrl` | hm/hm.go:103-105 | the URL is "http://", then the host, then "/api/homematic.cgi" |
| `Hm.Conn.Do` | hm/hm.go:70-101 | the caller's map gains the session id iff the key is non-empty; the posted request is version "1.1", the method, that map, at the RPC URL; stored result and error follow `StoredResult` and `CallError` |
| `Hm.Conn.Authenticate` | hm/hm.go:47-68 | posts the login; the session key becomes the decoded result if any, else stays; a renewal loop starts iff the call succeeded |
| `Hm.Conn.Renew` | hm/hm.go:59-64 | one renewal tick posts `Session.renew` with exactly `_session_id_ ↦ key` |
| `Hm.Conn.Close` | hm/hm.go:107-110 | posts `Session.logout` with the empty map, plus `_session_id_` when the key is non-empty, and returns the call's error |
| `Hm.Conn.Rooms` | hm/hm.go:118-122 | posts `Room.getAll`; returns whatever decoded (else empty) together with the call's error |
| `Hm.Conn.Value` | hm/hm.go:203-215 | posts `Interface.getValue` with interface, address and value key; returns `HubNumber` |
| `Hm.Conn.SetValue` | hm/hm.go:158-187 | posts `Interface.setValue` with interface, address, value key, type "string" and the encoded value; returns the call's error |
| `Hm.Conn.ReadValue` | hm/hm.go:169-192 | posts the `getValue` for the device's address and key, `STATE` for a switch and `LEVEL` for a blind; returns `DeviceReading` of what `value` gave |
| `Hm.Conn.Devices` | hm/hm.go:137-201 | a failed topology listing returns no devices and the error, without listing rooms; otherwise rooms are listed and their error ignored, and the devices are exactly `Directory` of topology and rooms |
| `Hm.NewConnection` | hm/hm.go:35-45 | the login request carries exactly the credentials; the key is the decoded result or ""; one renewal loop iff login succeeded; the connection is returned even on error |
| `Bridge.Getenv` | hmhk.go:25 | an unset variable reads as "", a set one as its value |
| `Bridge.ConfigFromEnv` | hmhk.go:25-33 | an empty `HM_CCU_ADDRESS` is the fatal error; an empty `HM_CCU_USER` becomes "Admin"; otherwise address, user and password are taken verbatim |
| `Bridge.AccessoryFor` | hmhk.go:48-60 | name "dev" + position, serial number the hub address, manufacturer "Homematic"; switch class for a switch, window covering for a blind |
| `Bridge.AccessoriesUpTo` | hmhk.go:47-66 | the first n devices give at most n accessories, each for a switch or blind, with its address as serial |
| `Bridge.MappedPositions` | hmhk.go:48-66 | the positions of mappable devices, ascending and complete |
| `Bridge.AccessoriesAt` | hmhk.go:48-66 | the k-th accessory is for the k-th switch or blind and is named after its position in the whole list, so names may have gaps |
| `Bridge.AccessoryNamesDistinct` | hmhk.go:48-54 | no two accessories share a name |
| `Bridge.AccessoriesCover` | hmhk.go:48-66 | every switch and blind of the list gets an accessory |
| `Bridge.AccessoriesFromList` | hmhk.go:48-66 | no more accessories than devices; every accessory is for a listed device, with its address as serial |
| `Bridge.MapAccessories` | hmhk.go:47-66 | the loop builds exactly `AccessoriesUpTo` over the whole list, skipping other types and keeping order |
| `Bridge.SwitchRefreshed` | hmhk.go:146-160 | after a successful read `On` is val != 0; after a failed read it is unchanged |
| `Bridge.PositionRefreshed` | hmhk.go:107-117 | after a successful read the position is the value read; after a failed read it is unchanged |
| `Bridge.SwitchWriteThenRefresh` | hmhk.go:136-158 | a switch set on/off, with a hub that reports the written number, shows the requested state after the refresh |
| `Bridge.BlindWriteThenRefresh` | hmhk.go:99-115 | a blind set to 1..99 sends "0", and after the refresh it shows the position of level 0, not the target |
| `Bridge.SwitchAccessory.constructor` | hmhk.go:129-134 | built only for a switch device; exactly one immediate refresh signal is injected at construction; the ticker period is 60 s |
| `Bridge.SwitchAccessory.RemoteUpdate` | hmhk.go:136-144 | writes 1 if on, else 0; ignores the error; leaves `On` alone; asks for one refresh after 5 s |
| `Bridge.SwitchAccessory.Refresh` | hmhk.go:146-160 | `On` becomes `SwitchRefreshed` of the old value and the read |
| `Bridge.BlindAccessory.constructor` | hmhk.go:92-124 | built only for a blind device; one immediate refresh signal; `TargetPosition` is seeded from the initial read only when it succeeded |
| `Bridge.BlindAccessory.RemoteUpdate` | hmhk.go:99-105 | writes the value, sets `CurrentPosition` to it at once, leaves `TargetPosition`, asks for one refresh after 15 s |
| `Bridge.BlindAccessory.Refresh` | hmhk.go:107-117 | `CurrentPosition` becomes `PositionRefreshed` of the old value and the read; nothing else changes |

## Left out

- HTTP transport and JSON encoding/decoding (hm/hm.go:79-92): each call's answer is a parameter. `json.Marshal` of a string map cannot fail, so its error branch (hm/hm.go:80-82) has no counterpart.
- Hm.StoredResult: does not model `json.Unmarshal` partly filling the target before a type error. A result that does not decode leaves the target untouched in the model.
- Hm.HubNumber: float parsing is the oracle `parse`. Its number stands for the float64 (±Inf on a range error is some non-zero number).
- Hm.DeviceReading: the blind's `int(v*100)` is the parameter `scale`, because float64 rounding (0.57*100 is just below 57) is not modelled on reals. So after a failed call the blind's value is `scale(0.0)`, not the 0 that `int(0*100)` gives; callers ignore the value whenever `err` is set.
- The session-renewal goroutine and its one-minute ticker (hm/hm.go:57-66): concurrency. Only the start of the loop (`renewalLoops`) and one tick (`Conn.Renew`) are modelled. The unsynchronised read and write of `sessionKey` is not.
- The refresh goroutines, `time.AfterFunc` timers and the ticker relay of hm/ticker.go: concurrency. The model records which signals each accessory asks for. It does not model when they are delivered, or that the relay blocks when the one-slot buffer is full.
- The HomeKit library (hc): creating accessories and services, the IP transport, the PIN, the termination hook, logging and `log.Fatal` (hmhk.go:68-89). It is foreign code and process I/O. Its bookkeeping of the remotely written characteristic itself (`On`, `TargetPosition`) is not modelled, and neither is any range clamping of characteristic values. The initial values of the characteristics are taken as Go zero values (false, 0).
- Go closures for the accessors: the model binds every device to its own channel address (hm/hm.go:153), and the tag-driven rules `SetValueParams` and `DeviceReading` take the place of the closures. The closures in the source read `hmChan.Address` only when they are called (hm/hm.go:162, 170, 182, 190). Under the loop-variable semantics of Go before 1.22 that is the address of the last channel of the same hub device, so every accessor of a multi-channel device would address that last channel; the model does not capture this. Calling an accessor of a `DeviceTypeNone` device is excluded by a precondition, because in Go that calls a nil function.
- Integer widths: Go's `int` is 32 or 64 bits depending on the platform. The arithmetic here (a division by 100, positions 0..100, list positions) cannot overflow either width, so the model uses unbounded integers.

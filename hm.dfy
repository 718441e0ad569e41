/** The hub client (hm/hm.go): the JSON-RPC envelope and its outcome rules, the
    session, the device directory builder and the per-capability value rules.
    The HTTP round trip and JSON decoding are an oracle: every call takes the
    `Exchange` the hub answered with as a parameter. */
module Hm {
  import opened Wrappers
  import opened Decimal
  import opened HmDevice

  const JsonRpcVersion := "1.1"
  const SessionParam := "_session_id_"
  const InterfaceName := "BidCos-RF"
  const ApiPath := "/api/homematic.cgi"

  /** A request as posted: the endpoint and the JSON body `{jsonrpc, method, params}`. */
  datatype Request = Request(url: string, version: string, rpcMethod: string, params: map<string, string>)

  /** The ways a call fails, in the order `do` checks them. */
  datatype RpcError =
    | Transport(reason: string)       // the POST itself failed
    | EnvelopeDecode(reason: string)  // the body is not a `{error, result}` envelope
    | ResultDecode(reason: string)    // `result` does not decode into the caller's target
    | CcuFailed(payload: string)      // `error` is not null

  /** The `result` member of an envelope, judged against the caller's target type. */
  datatype ResultField<T> = Null | Value(value: T) | Malformed(reason: string)

  /** What came back for one posted request. */
  datatype Exchange<T> =
    | TransportFailed(reason: string)
    | EnvelopeMalformed(reason: string)
    | Envelope(error: Option<string>, result: ResultField<T>)

  /** Hub topology and room records as `Device.listAllDetail` and `Room.getAll` return them. */
  datatype HubChannel = HubChannel(id: string, address: string, channelType: string)
  datatype HubDevice = HubDevice(id: string, deviceType: string, address: string, channels: seq<HubChannel>)
  datatype HubRoom = HubRoom(id: string, name: string, channelIds: seq<string>)

  /** An undecoded JSON value (`json.RawMessage`). */
  datatype RawJson = RawJson(text: string)

  /** `strconv.ParseFloat`'s two results: a number and an optional error. */
  datatype FloatParse = FloatParse(number: real, err: Option<string>)

  /** Why reading a value failed: the call, or the number in its answer. */
  datatype ValueError = CallFailed(cause: RpcError) | NotANumber(reason: string)

  /** The `(float64, error)` pair `value` returns. */
  datatype HubValue = HubValue(number: real, err: Option<ValueError>)

  /** The `(int, error)` pair a device's read accessor returns. */
  datatype Reading = Reading(val: int, err: Option<ValueError>)

  /** A Go `map[string]string` that callers hand to `do`; `do` writes into it. */
  class ParamMap {
    var entries: map<string, string>

    constructor (m: map<string, string>)
      ensures entries == m
    {
      entries := m;
    }
  }

  // ---------------------------------------------------------------------------
  // Envelope rules

  /** The parameters `do` sends: the session id is added, overwriting any entry of
      that name, exactly when the session key is non-empty. */
  function WithSession(params: map<string, string>, key: string): (r: map<string, string>)
    ensures |key| == 0 ==> r == params
    ensures |key| != 0 ==> r.Keys == params.Keys + {SessionParam} && r[SessionParam] == key
    ensures forall k :: k in params && k != SessionParam ==> k in r && r[k] == params[k]
  {
    if |key| != 0 then params[SessionParam := key] else params
  }

  /** The error `do` returns for an exchange. A result that does not decode is
      reported before the `error` member is looked at. */
  function CallError<T>(x: Exchange<T>): (err: Option<RpcError>)
    ensures err.None? <==> x.Envelope? && x.error.None? && !x.result.Malformed?
    ensures x.TransportFailed? ==> err == Some(Transport(x.reason))
    ensures x.EnvelopeMalformed? ==> err == Some(EnvelopeDecode(x.reason))
    ensures x.Envelope? && x.result.Malformed? ==> err == Some(ResultDecode(x.result.reason))
    ensures x.Envelope? && !x.result.Malformed? && x.error.Some? ==> err == Some(CcuFailed(x.error.value))
  {
    match x
    case TransportFailed(r) => Some(Transport(r))
    case EnvelopeMalformed(r) => Some(EnvelopeDecode(r))
    case Envelope(e, res) =>
      if res.Malformed? then Some(ResultDecode(res.reason))
      else if e.Some? then Some(CcuFailed(e.value))
      else None
  }

  /** What `do` leaves in the caller's target: the decoded result whenever it decoded,
      whether or not `error` is null; nothing for a failed exchange or a JSON null. */
  function StoredResult<T>(x: Exchange<T>): (r: Option<T>)
    ensures r.Some? <==> x.Envelope? && x.result.Value?
    ensures r.Some? ==> r.value == x.result.value
  {
    if x.Envelope? && x.result.Value? then Some(x.result.value) else None
  }

  /** A call succeeds only when every stage succeeded, and then the target holds
      the decoded result if it was not null. */
  lemma SuccessMeansDecoded<T>(x: Exchange<T>)
    requires CallError(x).None?
    ensures x == Envelope(None, x.result) && !x.result.Malformed?
    ensures x.result.Value? ==> StoredResult(x) == Some(x.result.value)
  {
  }

  /** A non-null `error` always fails the call, whatever the result holds, yet a
      result that decoded has already been written to the target. */
  lemma ErrorIndicatorFails<T>(e: string, res: ResultField<T>)
    ensures CallError(Envelope(Some(e), res)).Some?
    ensures res.Value? ==> StoredResult(Envelope(Some(e), res)) == Some(res.value)
  {
  }

  /** The request `do` posts for `params` under session key `key`: protocol version
      "1.1", the method, and the parameters carrying the key exactly when it is non-empty. */
  function Call(url: string, rpcMethod: string, params: map<string, string>, key: string): (r: Request)
    ensures r.url == url && r.version == "1.1" && r.rpcMethod == rpcMethod
    ensures |key| != 0 ==> r.params.Keys == params.Keys + {SessionParam} && r.params[SessionParam] == key
    ensures |key| == 0 ==> r.params == params
    ensures forall k :: k in params && k != SessionParam ==> k in r.params && r.params[k] == params[k]
  {
    Request(url, JsonRpcVersion, rpcMethod, WithSession(params, key))
  }

  /** The parameters of the login call: exactly the two credentials. */
  function LoginParams(user: string, pass: string): (m: map<string, string>)
    ensures m.Keys == {"username", "password"}
    ensures m["username"] == user && m["password"] == pass
  {
    map["username" := user, "password" := pass]
  }

  /** The login request of a fresh connection carries the credentials and no session id. */
  lemma LoginCarriesNoSession(url: string, user: string, pass: string)
    ensures Call(url, "Session.login", LoginParams(user, pass), "").params == LoginParams(user, pass)
    ensures SessionParam !in Call(url, "Session.login", LoginParams(user, pass), "").params
  {
  }

  // ---------------------------------------------------------------------------
  // Per-capability value rules

  /** Go's `a / 100` on `int`: the quotient rounded toward zero (Dafny's `/` rounds down). */
  function GoDiv100(a: int): (q: int)
    ensures a >= 0 ==> 0 <= q * 100 <= a < q * 100 + 100
    ensures a < 0 ==> q * 100 - 100 < a <= q * 100 <= 0
  {
    if a >= 0 then a / 100 else -((-a) / 100)
  }

  /** The hub's value key for each capability. */
  function ValueKey(t: DeviceType): (key: string)
    requires t != TypeNone
    ensures key == "STATE" <==> t == TypeSwitch
    ensures key == "LEVEL" <==> t == TypeBlind
  {
    match t
    case TypeSwitch => assert "STATE"[0] != "LEVEL"[0]; "STATE"
    case TypeBlind => assert "STATE"[0] != "LEVEL"[0]; "LEVEL"
  }

  /** The number a write of `v` sends: `v` for a switch, `v / 100` for a blind. */
  function WireNumber(t: DeviceType, v: int): (n: int)
    requires t != TypeNone
    ensures t == TypeSwitch ==> n == v
    ensures t == TypeBlind ==> n == GoDiv100(v)
    ensures t == TypeBlind && 0 <= v < 100 ==> n == 0
    ensures t == TypeBlind && v == 100 ==> n == 1
  {
    if t == TypeSwitch then v else GoDiv100(v)
  }

  /** The `value` string a write of `v` sends. It denotes the switch value unchanged
      (no clamping) and the blind value divided by 100 toward zero, so a blind sends
      "0" for 0..99 and "1" for 100. */
  function WireValue(t: DeviceType, v: int): (s: string)
    requires t != TypeNone
    ensures s == Itoa(if t == TypeSwitch then v else GoDiv100(v))
    ensures ParseInt(s) == Some(if t == TypeSwitch then v else GoDiv100(v))
    ensures t == TypeBlind && 0 <= v < 100 ==> s == "0"
    ensures t == TypeBlind && v == 100 ==> s == "1"
  {
    ItoaRoundTrip(WireNumber(t, v));
    Itoa(WireNumber(t, v))
  }

  /** Parameters of the `Interface.setValue` call a device's write accessor makes. */
  function SetValueParams(d: Device, v: int): (m: map<string, string>)
    requires d.kind != TypeNone
    ensures m.Keys == {"interface", "address", "valueKey", "type", "value"}
    ensures m["interface"] == "BidCos-RF" && m["address"] == d.hmAddress && m["type"] == "string"
    ensures m["valueKey"] == ValueKey(d.kind)
    ensures m["value"] == Itoa(WireNumber(d.kind, v))
    ensures ParseInt(m["value"]) == Some(WireNumber(d.kind, v))
  {
    map["interface" := InterfaceName, "address" := d.hmAddress, "valueKey" := ValueKey(d.kind),
        "type" := "string", "value" := WireValue(d.kind, v)]
  }

  /** Parameters of the `Interface.getValue` call. */
  function GetValueParams(address: string, valueKey: string): (m: map<string, string>)
    ensures m.Keys == {"interface", "address", "valueKey"}
    ensures m["interface"] == "BidCos-RF" && m["address"] == address && m["valueKey"] == valueKey
  {
    map["interface" := InterfaceName, "address" := address, "valueKey" := valueKey]
  }

  /** A device's write and its read address the same channel under the same value key,
      which is "STATE" exactly for a switch and "LEVEL" exactly for a blind. */
  lemma ReadWriteShareValueKey(d: Device, v: int)
    requires d.kind != TypeNone
    ensures SetValueParams(d, v)["valueKey"] == GetValueParams(d.hmAddress, ValueKey(d.kind))["valueKey"]
    ensures SetValueParams(d, v)["address"] == GetValueParams(d.hmAddress, ValueKey(d.kind))["address"]
    ensures SetValueParams(d, v)["valueKey"] == "STATE" <==> d.kind == TypeSwitch
    ensures SetValueParams(d, v)["valueKey"] == "LEVEL" <==> d.kind == TypeBlind
  {
  }

  /** The switch read: 0 exactly when the hub reports 0, 1 for any other number. */
  function SwitchLevel(x: real): (n: int)
    ensures n == 0 || n == 1
    ensures n == 0 <==> x == 0.0
  {
    if x == 0.0 then 0 else 1
  }

  /** A switch that was written `v` and whose hub stores and reports the written
      number reads back 0 for 0 and 1 for anything else; 0 and 1 read back exactly. */
  lemma SwitchWriteRead(v: int)
    ensures ParseInt(WireValue(TypeSwitch, v)) == Some(v)
    ensures SwitchLevel(v as real) == if v == 0 then 0 else 1
    ensures 0 <= v <= 1 ==> SwitchLevel(v as real) == v
  {
  }

  /** What `value` returns for a `getValue` exchange: 0 and the call's error when the
      call failed, otherwise whatever parsing the answer (or "" for a null answer) gives. */
  function HubNumber(x: Exchange<string>, parse: string -> FloatParse): (r: HubValue)
    ensures CallError(x).Some? ==> r == HubValue(0.0, Some(CallFailed(CallError(x).value)))
    ensures CallError(x).None? ==> r.number == parse(StoredResult(x).GetOr("")).number
    ensures CallError(x).None? ==> (r.err.None? <==> parse(StoredResult(x).GetOr("")).err.None?)
    ensures CallError(x).None? && parse(StoredResult(x).GetOr("")).err.Some? ==>
              r.err == Some(NotANumber(parse(StoredResult(x).GetOr("")).err.value))
  {
    match CallError(x)
    case Some(e) => HubValue(0.0, Some(CallFailed(e)))
    case None =>
      var p := parse(StoredResult(x).GetOr(""));
      HubValue(p.number, if p.err.Some? then Some(NotANumber(p.err.value)) else None)
  }

  /** A device's read accessor applied to what `value` returned. The blind's
      `int(v*100)` in float64 arithmetic is the parameter `scale`. */
  function DeviceReading(t: DeviceType, h: HubValue, scale: real -> int): (r: Reading)
    requires t != TypeNone
    ensures r.err == h.err
    ensures t == TypeSwitch ==> r.val == SwitchLevel(h.number)
    ensures t == TypeBlind ==> r.val == scale(h.number)
  {
    if t == TypeSwitch then Reading(SwitchLevel(h.number), h.err) else Reading(scale(h.number), h.err)
  }

  /** A switch read whose call failed yields 0 together with the call's error. */
  lemma SwitchReadOnCallFailure(x: Exchange<string>, parse: string -> FloatParse, scale: real -> int)
    requires CallError(x).Some?
    ensures DeviceReading(TypeSwitch, HubNumber(x, parse), scale) == Reading(0, Some(CallFailed(CallError(x).value)))
  {
  }

  // ---------------------------------------------------------------------------
  // Device directory

  /** `associateRoom`: the name of the first room, in list order, that lists the channel's id. */
  function AssociateRoom(rooms: seq<HubRoom>, ch: HubChannel): (name: string)
    ensures (forall k :: 0 <= k < |rooms| ==> ch.id !in rooms[k].channelIds) ==> name == ""
    ensures forall k :: 0 <= k < |rooms| && ch.id in rooms[k].channelIds ==>
              (exists m :: 0 <= m < k && ch.id in rooms[m].channelIds) || name == rooms[k].name
  {
    if |rooms| == 0 then ""
    else if ch.id in rooms[0].channelIds then rooms[0].name
    else
      var rest := AssociateRoom(rooms[1..], ch);
      assert forall k :: 1 <= k < |rooms| ==> rooms[k] == rooms[1..][k - 1];
      rest
  }

  /** Whether a channel type becomes a device. */
  predicate Supported(ch: HubChannel) {
    ch.channelType == "SWITCH" || ch.channelType == "BLIND"
  }

  /** The device a supported channel becomes. */
  function ChannelDevice(ch: HubChannel, rooms: seq<HubRoom>): (d: Device)
    requires Supported(ch)
    ensures d.hmAddress == ch.address && d.room == AssociateRoom(rooms, ch)
    ensures d.kind == TypeSwitch <==> ch.channelType == "SWITCH"
    ensures d.kind == TypeBlind <==> ch.channelType == "BLIND"
  {
    Device(if ch.channelType == "SWITCH" then TypeSwitch else TypeBlind, ch.address, AssociateRoom(rooms, ch))
  }

  /** The devices a list of channels contributes, in channel order. */
  function Entries(chs: seq<HubChannel>, rooms: seq<HubRoom>): (r: seq<Device>)
    ensures |r| <= |chs|
    ensures forall d :: d in r ==> d.kind != TypeNone
    decreases |chs|
  {
    if |chs| == 0 then []
    else
      var last := chs[|chs| - 1];
      Entries(chs[..|chs| - 1], rooms) + (if Supported(last) then [ChannelDevice(last, rooms)] else [])
  }

  /** The devices the topology contributes, device by device. */
  function Directory(devs: seq<HubDevice>, rooms: seq<HubRoom>): (r: seq<Device>)
    ensures forall d :: d in r ==> d.kind != TypeNone
    decreases |devs|
  {
    if |devs| == 0 then []
    else Directory(devs[..|devs| - 1], rooms) + Entries(devs[|devs| - 1].channels, rooms)
  }

  /** The number of supported channels in a list. */
  function CountSupported(chs: seq<HubChannel>): nat
    decreases |chs|
  {
    if |chs| == 0 then 0
    else CountSupported(chs[..|chs| - 1]) + (if Supported(chs[|chs| - 1]) then 1 else 0)
  }

  /** Channel order is kept: the entries of two lists are the entries of each, in turn. */
  lemma {:induction false} EntriesAppend(a: seq<HubChannel>, b: seq<HubChannel>, rooms: seq<HubRoom>)
    ensures Entries(a + b, rooms) == Entries(a, rooms) + Entries(b, rooms)
    decreases |b|
  {
    if |b| == 0 {
      assert a + b == a;
    } else {
      var b' := b[..|b| - 1];
      assert (a + b)[..|a + b| - 1] == a + b';
      assert (a + b)[|a + b| - 1] == b[|b| - 1];
      EntriesAppend(a, b', rooms);
    }
  }

  /** A single channel gives its device when supported and nothing otherwise. */
  lemma EntriesSingle(ch: HubChannel, rooms: seq<HubRoom>)
    ensures Entries([ch], rooms) == if Supported(ch) then [ChannelDevice(ch, rooms)] else []
  {
  }

  /** Device order is kept: the directory of two device lists is the directory of each, in turn. */
  lemma {:induction false} DirectoryAppend(a: seq<HubDevice>, b: seq<HubDevice>, rooms: seq<HubRoom>)
    ensures Directory(a + b, rooms) == Directory(a, rooms) + Directory(b, rooms)
    decreases |b|
  {
    if |b| == 0 {
      assert a + b == a;
    } else {
      var b' := b[..|b| - 1];
      assert (a + b)[..|a + b| - 1] == a + b';
      assert (a + b)[|a + b| - 1] == b[|b| - 1];
      DirectoryAppend(a, b', rooms);
    }
  }

  /** A single hub device contributes exactly the entries of its channels. */
  lemma DirectorySingle(dev: HubDevice, rooms: seq<HubRoom>)
    ensures Directory([dev], rooms) == Entries(dev.channels, rooms)
  {
  }

  /** Every supported channel gives one device, with no de-duplication, and every
      entry is a switch or a blind bound to the address of a channel of the list. */
  lemma {:induction false} EntriesShape(chs: seq<HubChannel>, rooms: seq<HubRoom>)
    ensures |Entries(chs, rooms)| == CountSupported(chs)
    ensures forall d :: d in Entries(chs, rooms) ==>
              d.kind != TypeNone && exists ch :: ch in chs && Supported(ch) && d == ChannelDevice(ch, rooms)
    ensures forall ch :: ch in chs && Supported(ch) ==> ChannelDevice(ch, rooms) in Entries(chs, rooms)
    decreases |chs|
  {
    if |chs| > 0 {
      var init := chs[..|chs| - 1];
      var last := chs[|chs| - 1];
      EntriesShape(init, rooms);
      assert chs == init + [last];
      forall ch | ch in chs && Supported(ch)
        ensures ChannelDevice(ch, rooms) in Entries(chs, rooms)
      {
        if ch != last { assert ch in init; }
      }
      forall d | d in Entries(chs, rooms)
        ensures d.kind != TypeNone && exists ch :: ch in chs && Supported(ch) && d == ChannelDevice(ch, rooms)
      {
        if d in Entries(init, rooms) {
          var ch :| ch in init && Supported(ch) && d == ChannelDevice(ch, rooms);
          assert ch in chs;
        } else {
          assert d == ChannelDevice(last, rooms);
        }
      }
    }
  }

  /** Without room data every device gets the empty room name. */
  lemma {:induction false} DirectoryWithoutRooms(devs: seq<HubDevice>)
    ensures forall d :: d in Directory(devs, []) ==> d.room == ""
    decreases |devs|
  {
    if |devs| > 0 {
      DirectoryWithoutRooms(devs[..|devs| - 1]);
      EntriesShape(devs[|devs| - 1].channels, []);
    }
  }

  // ---------------------------------------------------------------------------
  // The connection

  class Conn {
    const ccuHost: string
    var sessionKey: string
    /** How many session-renewal loops have been started; the loops themselves run concurrently. */
    var renewalLoops: nat

    constructor (addr: string)
      ensures ccuHost == addr && sessionKey == "" && renewalLoops == 0
    {
      ccuHost := addr;
      sessionKey := "";
      renewalLoops := 0;
    }

    /** `rpcURL`: the endpoint every call is posted to, the hub's host between
        "http://" and the API path. */
    function RpcUrl(): (url: string)
      ensures |url| == 7 + |ccuHost| + |ApiPath|
      ensures url[..7] == "http://"
      ensures url[7..|url| - |ApiPath|] == ccuHost
      ensures url[|url| - |ApiPath|..] == ApiPath
    {
      "http://" + ccuHost + ApiPath
    }

    /** `do`: adds the session id to the caller's own map when there is a session key,
        posts the envelope, and decides the outcome from the exchange. */
    method Do<T>(rpcMethod: string, req: ParamMap, x: Exchange<T>)
      returns (posted: Request, stored: Option<T>, err: Option<RpcError>)
      modifies req
      ensures req.entries == WithSession(old(req.entries), sessionKey)
      ensures posted == Request(RpcUrl(), JsonRpcVersion, rpcMethod, req.entries)
      ensures stored == StoredResult(x) && err == CallError(x)
    {
      if |sessionKey| != 0 {
        req.entries := req.entries[SessionParam := sessionKey];
      }
      posted := Request(RpcUrl(), JsonRpcVersion, rpcMethod, req.entries);
      stored := None;
      match x {
        case TransportFailed(r) =>
          err := Some(Transport(r));
          return;
        case EnvelopeMalformed(r) =>
          err := Some(EnvelopeDecode(r));
          return;
        case Envelope(e, res) =>
          match res {
            case Malformed(r) =>
              err := Some(ResultDecode(r));
              return;
            case Null =>
            case Value(v) =>
              stored := Some(v);
          }
          if e.Some? {
            err := Some(CcuFailed(e.value));
            return;
          }
          err := None;
      }
    }

    /** `authenticate`: logs in, storing whatever the login result decodes to as the
        session key, and starts one renewal loop when the call succeeded. */
    method Authenticate(user: string, pass: string, x: Exchange<string>)
      returns (posted: Request, err: Option<RpcError>)
      modifies this
      ensures posted == Call(RpcUrl(), "Session.login", LoginParams(user, pass), old(sessionKey))
      ensures sessionKey == StoredResult(x).GetOr(old(sessionKey))
      ensures err == CallError(x)
      ensures renewalLoops == old(renewalLoops) + (if err.None? then 1 else 0)
    {
      var req := new ParamMap(LoginParams(user, pass));
      var stored;
      posted, stored, err := Do("Session.login", req, x);
      if stored.Some? {
        sessionKey := stored.value;
      }
      if err.Some? {
        return;
      }
      renewalLoops := renewalLoops + 1;
    }

    /** One tick of the renewal loop; its failure is only logged. The result is decoded
        into a `json.RawMessage`, which takes any JSON value, so the hub's answer is
        an `Exchange<RawJson>` whose result is never `Malformed` in practice. */
    method Renew(x: Exchange<RawJson>) returns (posted: Request)
      ensures posted == Call(RpcUrl(), "Session.renew", map[SessionParam := sessionKey], sessionKey)
      ensures posted.params == map[SessionParam := sessionKey]
    {
      var req := new ParamMap(map[SessionParam := sessionKey]);
      var stored, err;
      posted, stored, err := Do("Session.renew", req, x);
    }

    /** `Close`: the logout call. */
    method Close(x: Exchange<bool>) returns (posted: Request, err: Option<RpcError>)
      ensures posted == Call(RpcUrl(), "Session.logout", map[], sessionKey)
      ensures err == CallError(x)
    {
      var req := new ParamMap(map[]);
      var stored;
      posted, stored, err := Do("Session.logout", req, x);
    }

    /** `Rooms`: the room list, which holds whatever decoded even when the call failed. */
    method Rooms(x: Exchange<seq<HubRoom>>) returns (posted: Request, rooms: seq<HubRoom>, err: Option<RpcError>)
      ensures posted == Call(RpcUrl(), "Room.getAll", map[], sessionKey)
      ensures rooms == StoredResult(x).GetOr([]) && err == CallError(x)
    {
      var req := new ParamMap(map[]);
      var stored;
      posted, stored, err := Do("Room.getAll", req, x);
      rooms := stored.GetOr([]);
    }

    /** `value`: one `getValue` call and the parse of its answer. */
    method Value(address: string, valueKey: string, x: Exchange<string>, parse: string -> FloatParse)
      returns (posted: Request, h: HubValue)
      ensures posted == Call(RpcUrl(), "Interface.getValue", GetValueParams(address, valueKey), sessionKey)
      ensures h == HubNumber(x, parse)
    {
      var req := new ParamMap(GetValueParams(address, valueKey));
      var stored, err;
      posted, stored, err := Do("Interface.getValue", req, x);
      if err.Some? {
        return posted, HubValue(0.0, Some(CallFailed(err.value)));
      }
      var p := parse(stored.GetOr(""));
      h := HubValue(p.number, if p.err.Some? then Some(NotANumber(p.err.value)) else None);
    }

    /** A device's write accessor. */
    method SetValue(d: Device, v: int, x: Exchange<bool>) returns (posted: Request, err: Option<RpcError>)
      requires d.kind != TypeNone
      ensures posted == Call(RpcUrl(), "Interface.setValue", SetValueParams(d, v), sessionKey)
      ensures posted.params["valueKey"] == (if d.kind == TypeSwitch then "STATE" else "LEVEL")
      ensures ParseInt(posted.params["value"]) == Some(WireNumber(d.kind, v))
      ensures err == CallError(x)
    {
      var req := new ParamMap(SetValueParams(d, v));
      var stored;
      posted, stored, err := Do("Interface.setValue", req, x);
    }

    /** A device's read accessor. */
    method ReadValue(d: Device, x: Exchange<string>, parse: string -> FloatParse, scale: real -> int)
      returns (posted: Request, r: Reading)
      requires d.kind != TypeNone
      ensures posted == Call(RpcUrl(), "Interface.getValue", GetValueParams(d.hmAddress, ValueKey(d.kind)), sessionKey)
      ensures posted.params["valueKey"] == (if d.kind == TypeSwitch then "STATE" else "LEVEL")
      ensures r == DeviceReading(d.kind, HubNumber(x, parse), scale)
    {
      var h;
      posted, h := Value(d.hmAddress, ValueKey(d.kind), x, parse);
      if d.kind == TypeSwitch {
        r := Reading(if h.number == 0.0 then 0 else 1, h.err);
      } else {
        r := Reading(scale(h.number), h.err);
      }
    }

    /** `Devices`: lists the topology, then the rooms (a failure there is only logged),
        and turns every SWITCH and BLIND channel into a device, in topology order. */
    method Devices(devX: Exchange<seq<HubDevice>>, roomX: Exchange<seq<HubRoom>>)
      returns (posted: seq<Request>, devs: seq<Device>, err: Option<RpcError>)
      ensures err == CallError(devX)
      ensures 1 <= |posted| && posted[0] == Call(RpcUrl(), "Device.listAllDetail", map["interface" := InterfaceName], sessionKey)
      ensures err.Some? ==> |posted| == 1 && devs == []
      ensures err.None? ==> |posted| == 2 && posted[1] == Call(RpcUrl(), "Room.getAll", map[], sessionKey)
      ensures err.None? ==> devs == Directory(StoredResult(devX).GetOr([]), StoredResult(roomX).GetOr([]))
    {
      var req := new ParamMap(map["interface" := InterfaceName]);
      var listed, stored;
      listed, stored, err := Do("Device.listAllDetail", req, devX);
      posted := [listed];
      if err.Some? {
        return posted, [], err;
      }
      var hubDevs := stored.GetOr([]);
      var roomReq, rooms, roomErr := Rooms(roomX);
      posted := posted + [roomReq];

      devs := [];
      var i := 0;
      while i < |hubDevs|
        invariant 0 <= i <= |hubDevs|
        invariant devs == Directory(hubDevs[..i], rooms)
      {
        var chans := hubDevs[i].channels;
        var j := 0;
        while j < |chans|
          invariant 0 <= j <= |chans|
          invariant devs == Directory(hubDevs[..i], rooms) + Entries(chans[..j], rooms)
        {
          var ch := chans[j];
          assert chans[..j + 1][..j] == chans[..j];
          var kind;
          if ch.channelType == "SWITCH" {
            kind := TypeSwitch;
          } else if ch.channelType == "BLIND" {
            kind := TypeBlind;
          } else {
            j := j + 1;
            continue;
          }
          devs := devs + [Device(kind, ch.address, AssociateRoom(rooms, ch))];
          j := j + 1;
        }
        assert chans[..j] == chans;
        assert hubDevs[..i + 1][..i] == hubDevs[..i];
        i := i + 1;
      }
      assert hubDevs[..i] == hubDevs;
    }
  }

  /** A fresh connection: log in with an empty session key, so the login request
      carries exactly the credentials. The connection is returned even on failure. */
  method NewConnection(addr: string, user: string, pass: string, x: Exchange<string>)
    returns (c: Conn, posted: Request, err: Option<RpcError>)
    ensures fresh(c) && c.ccuHost == addr
    ensures posted == Request(c.RpcUrl(), JsonRpcVersion, "Session.login", LoginParams(user, pass))
    ensures c.sessionKey == StoredResult(x).GetOr("")
    ensures err == CallError(x) && c.renewalLoops == (if err.None? then 1 else 0)
  {
    c := new Conn(addr);
    posted, err := c.Authenticate(user, pass, x);
  }
}

/** The bridge program (hmhk.go): configuration from the environment, the mapping
    from devices to accessories, and each accessory's reconciliation handlers.
    Accessory characteristics are plain fields; the refresh signals an accessory
    asks for are recorded in order, and the timers and goroutines that deliver
    them are not modelled. */
module Bridge {
  import opened Wrappers
  import opened Decimal
  import opened HmDevice
  import opened Hm

  // ---------------------------------------------------------------------------
  // Configuration

  const DefaultUser := "Admin"

  datatype Config = Config(ccuAddress: string, user: string, password: string)

  /** The one configuration error, fatal at start-up. */
  datatype ConfigError = MissingCcuAddress

  /** `os.Getenv`: the empty string for an unset variable. */
  function Getenv(env: map<string, string>, name: string): (value: string)
    ensures name in env ==> value == env[name]
    ensures name !in env ==> value == ""
  {
    if name in env then env[name] else ""
  }

  /** The start of `main`: the hub address is mandatory, the user defaults to
      "Admin", the password is taken as it is (possibly empty). */
  function ConfigFromEnv(env: map<string, string>): (r: Result<Config, ConfigError>)
    ensures r.Failure? <==> Getenv(env, "HM_CCU_ADDRESS") == ""
    ensures r.Success? ==> r.value.ccuAddress == Getenv(env, "HM_CCU_ADDRESS")
    ensures r.Success? ==> r.value.password == Getenv(env, "HM_CCU_PASSWORD")
    ensures r.Success? && Getenv(env, "HM_CCU_USER") != "" ==> r.value.user == Getenv(env, "HM_CCU_USER")
    ensures r.Success? && Getenv(env, "HM_CCU_USER") == "" ==> r.value.user == DefaultUser
    ensures r.Success? ==> r.value.user != ""
  {
    var address := Getenv(env, "HM_CCU_ADDRESS");
    if |address| == 0 then Failure(MissingCcuAddress)
    else
      var user := Getenv(env, "HM_CCU_USER");
      Success(Config(address, if |user| == 0 then DefaultUser else user, Getenv(env, "HM_CCU_PASSWORD")))
  }

  // ---------------------------------------------------------------------------
  // Devices to accessories

  const Manufacturer := "Homematic"

  datatype AccessoryInfo = AccessoryInfo(name: string, serialNumber: string, manufacturer: string)

  /** The accessory class a device is published as. */
  datatype AccessoryKind = SwitchKind | WindowCoveringKind

  /** One entry of the accessory list: its information, its class and its device. */
  datatype Accessory = Accessory(info: AccessoryInfo, kind: AccessoryKind, device: Device)

  /** The accessory for the device at position `num` of the device list. */
  function AccessoryFor(num: nat, d: Device): (a: Accessory)
    requires d.kind != TypeNone
    ensures a.info == AccessoryInfo("dev" + Itoa(num), d.hmAddress, Manufacturer) && a.device == d
    ensures a.kind == (if d.kind == TypeSwitch then SwitchKind else WindowCoveringKind)
  {
    Accessory(AccessoryInfo("dev" + Itoa(num), d.hmAddress, Manufacturer),
              if d.kind == TypeSwitch then SwitchKind else WindowCoveringKind, d)
  }

  /** The accessories the first `n` devices give, as the loop in `main` appends them. */
  function AccessoriesUpTo(devs: seq<Device>, n: nat): (accs: seq<Accessory>)
    requires n <= |devs|
    ensures |accs| <= n
    ensures forall a :: a in accs ==> a.device.kind != TypeNone && a.info.serialNumber == a.device.hmAddress
  {
    if n == 0 then []
    else AccessoriesUpTo(devs, n - 1) + (if devs[n - 1].kind != TypeNone then [AccessoryFor(n - 1, devs[n - 1])] else [])
  }

  /** The positions, below `n`, of the devices that become accessories, in ascending order. */
  function MappedPositions(devs: seq<Device>, n: nat): (ix: seq<nat>)
    requires n <= |devs|
    ensures forall k :: 0 <= k < |ix| ==> ix[k] < n && devs[ix[k]].kind != TypeNone
    ensures forall k, l :: 0 <= k < l < |ix| ==> ix[k] < ix[l]
    ensures forall i :: 0 <= i < n && devs[i].kind != TypeNone ==> i in ix
  {
    if n == 0 then []
    else MappedPositions(devs, n - 1) + (if devs[n - 1].kind != TypeNone then [n - 1] else [])
  }

  /** The k-th accessory is the one for the k-th mappable device, named after that
      device's position in the whole list (so skipped devices leave gaps in the names). */
  lemma {:induction false} AccessoriesAt(devs: seq<Device>, n: nat)
    requires n <= |devs|
    ensures |AccessoriesUpTo(devs, n)| == |MappedPositions(devs, n)|
    ensures forall k :: 0 <= k < |AccessoriesUpTo(devs, n)| ==>
              AccessoriesUpTo(devs, n)[k] == AccessoryFor(MappedPositions(devs, n)[k], devs[MappedPositions(devs, n)[k]])
  {
    if n > 0 {
      AccessoriesAt(devs, n - 1);
    }
  }

  /** No two accessories get the same name. */
  lemma AccessoryNamesDistinct(devs: seq<Device>)
    ensures forall k, l :: 0 <= k < l < |AccessoriesUpTo(devs, |devs|)| ==>
              AccessoriesUpTo(devs, |devs|)[k].info.name != AccessoriesUpTo(devs, |devs|)[l].info.name
  {
    var accs := AccessoriesUpTo(devs, |devs|);
    var ix := MappedPositions(devs, |devs|);
    AccessoriesAt(devs, |devs|);
    forall k, l | 0 <= k < l < |accs|
      ensures accs[k].info.name != accs[l].info.name
    {
      var a, b := Itoa(ix[k]), Itoa(ix[l]);
      if accs[k].info.name == accs[l].info.name {
        assert ("dev" + a)[3..] == a && ("dev" + b)[3..] == b;
        ItoaInjective(ix[k], ix[l]);
      }
    }
  }

  /** Every switch and blind of the list gets an accessory. */
  lemma AccessoriesCover(devs: seq<Device>)
    ensures forall d :: d in devs && d.kind != TypeNone ==> exists a :: a in AccessoriesUpTo(devs, |devs|) && a.device == d
  {
    var accs := AccessoriesUpTo(devs, |devs|);
    var ix := MappedPositions(devs, |devs|);
    AccessoriesAt(devs, |devs|);
    forall d | d in devs && d.kind != TypeNone
      ensures exists a :: a in accs && a.device == d
    {
      var i :| 0 <= i < |devs| && devs[i] == d;
      var k :| 0 <= k < |ix| && ix[k] == i;
      assert accs[k].device == d;
    }
  }

  /** There are no more accessories than devices, and every accessory is for a device
      of the list, with that device's address as serial number. */
  lemma AccessoriesFromList(devs: seq<Device>)
    ensures |AccessoriesUpTo(devs, |devs|)| <= |devs|
    ensures forall a :: a in AccessoriesUpTo(devs, |devs|) ==> a.device in devs && a.info.serialNumber == a.device.hmAddress
  {
    var accs := AccessoriesUpTo(devs, |devs|);
    var ix := MappedPositions(devs, |devs|);
    AccessoriesAt(devs, |devs|);
    forall a | a in accs
      ensures a.device in devs
    {
      var k :| 0 <= k < |accs| && accs[k] == a;
      assert a.device == devs[ix[k]];
    }
  }

  /** The accessory-building loop of `main`; devices of any other type are skipped. */
  method MapAccessories(devs: seq<Device>) returns (accs: seq<Accessory>)
    ensures accs == AccessoriesUpTo(devs, |devs|)
  {
    accs := [];
    var num := 0;
    while num < |devs|
      invariant 0 <= num <= |devs|
      invariant accs == AccessoriesUpTo(devs, num)
    {
      var dev := devs[num];
      var acc;
      if dev.kind == TypeSwitch {
        acc := AccessoryFor(num, dev);
      } else if dev.kind == TypeBlind {
        acc := AccessoryFor(num, dev);
      } else {
        num := num + 1;
        continue;
      }
      accs := accs + [acc];
      num := num + 1;
    }
  }

  // ---------------------------------------------------------------------------
  // Reconciliation

  /** How long after a write the state is read back. */
  const GracePeriodSeconds := 5
  /** The period of each accessory's refresh ticker. */
  const RefreshIntervalSeconds := 60

  /** A refresh signal an accessory asks for: at once, or after a delay. */
  datatype Trigger = Immediate | After(seconds: nat)

  /** The switch's displayed `On` after a refresh: the hub's value when the read
      succeeded, otherwise what was displayed before. */
  function SwitchRefreshed(on: bool, r: Reading): (on': bool)
    ensures r.err.None? ==> (on' <==> r.val != 0)
    ensures r.err.Some? ==> on' == on
  {
    if r.err.Some? then on else r.val != 0
  }

  /** The blind's displayed `CurrentPosition` after a refresh. */
  function PositionRefreshed(pos: int, r: Reading): (pos': int)
    ensures r.err.None? ==> pos' == r.val
    ensures r.err.Some? ==> pos' == pos
  {
    if r.err.Some? then pos else r.val
  }

  /** A switch set to `want`, whose hub stores the written number and reports it back,
      displays `want` after the refresh, whatever it displayed before. */
  lemma SwitchWriteThenRefresh(want: bool, shown: bool, scale: real -> int)
    ensures var wire := WireValue(TypeSwitch, if want then 1 else 0);
            ParseInt(wire).Some? &&
            SwitchRefreshed(shown, DeviceReading(TypeSwitch, HubValue(ParseInt(wire).value as real, None), scale)) == want
  {
  }

  /** A blind set to 1..99 sends level "0", so once the hub reports that level the
      refresh shows the position of level 0, not the one asked for. */
  lemma BlindWriteThenRefresh(v: int, shown: int, scale: real -> int)
    requires 0 < v < 100 && scale(0.0) == 0
    ensures var wire := WireValue(TypeBlind, v);
            wire == "0" && ParseInt(wire) == Some(0) &&
            PositionRefreshed(shown, DeviceReading(TypeBlind, HubValue(0.0, None), scale)) == 0 != v
  {
  }

  /** The switch accessory of `newSwitch`. */
  class SwitchAccessory {
    const info: AccessoryInfo
    const device: Device
    const tickerSeconds: nat
    /** The displayed `On` characteristic. */
    var on: bool
    /** The refresh signals asked for so far, in order. */
    var triggers: seq<Trigger>

    /** Construction injects one immediate refresh signal. */
    constructor (info: AccessoryInfo, dev: Device)
      requires dev.kind == TypeSwitch
      ensures this.info == info && device == dev && tickerSeconds == RefreshIntervalSeconds
      ensures on == false && triggers == [Immediate]
    {
      this.info := info;
      device := dev;
      tickerSeconds := RefreshIntervalSeconds;
      on := false;
      triggers := [Immediate];
    }

    /** A remote update: writes 1 or 0, ignores the write's error, does not change
        `On` and asks for one refresh after the grace period. */
    method RemoteUpdate(conn: Conn, want: bool, x: Exchange<bool>) returns (posted: Request)
      requires device.kind != TypeNone
      modifies this
      ensures posted == Call(conn.RpcUrl(), "Interface.setValue", SetValueParams(device, if want then 1 else 0), conn.sessionKey)
      ensures on == old(on) && triggers == old(triggers) + [After(GracePeriodSeconds)]
    {
      var err;
      if want {
        posted, err := conn.SetValue(device, 1, x);
      } else {
        posted, err := conn.SetValue(device, 0, x);
      }
      triggers := triggers + [After(GracePeriodSeconds)];
    }

    /** A refresh signal, with the outcome of the device's read accessor. */
    method Refresh(r: Reading)
      modifies this
      ensures on == SwitchRefreshed(old(on), r) && triggers == old(triggers)
    {
      if r.err.Some? {
        return;
      }
      if r.val == 0 {
        on := false;
      } else {
        on := true;
      }
    }
  }

  /** The window-covering accessory of `newBlind`. */
  class BlindAccessory {
    const info: AccessoryInfo
    const device: Device
    const tickerSeconds: nat
    /** The displayed `CurrentPosition` and `TargetPosition` characteristics. */
    var currentPosition: int
    var targetPosition: int
    var triggers: seq<Trigger>

    /** Construction injects one immediate refresh signal and seeds `TargetPosition`
        from the initial read only when that read succeeded. */
    constructor (info: AccessoryInfo, dev: Device, initial: Reading)
      requires dev.kind == TypeBlind
      ensures this.info == info && device == dev && tickerSeconds == RefreshIntervalSeconds
      ensures currentPosition == 0 && triggers == [Immediate]
      ensures targetPosition == (if initial.err.None? then initial.val else 0)
    {
      this.info := info;
      device := dev;
      tickerSeconds := RefreshIntervalSeconds;
      currentPosition := 0;
      targetPosition := 0;
      triggers := [Immediate];
      if initial.err.None? {
        targetPosition := initial.val;
      }
    }

    /** A remote update: writes the value, shows it at once as the current position
        and asks for one refresh after three grace periods. */
    method RemoteUpdate(conn: Conn, val: int, x: Exchange<bool>) returns (posted: Request)
      requires device.kind != TypeNone
      modifies this
      ensures posted == Call(conn.RpcUrl(), "Interface.setValue", SetValueParams(device, val), conn.sessionKey)
      ensures currentPosition == val && targetPosition == old(targetPosition)
      ensures triggers == old(triggers) + [After(3 * GracePeriodSeconds)]
    {
      var err;
      posted, err := conn.SetValue(device, val, x);
      currentPosition := val;
      triggers := triggers + [After(3 * GracePeriodSeconds)];
    }

    /** A refresh signal, with the outcome of the device's read accessor. */
    method Refresh(r: Reading)
      modifies this
      ensures currentPosition == PositionRefreshed(old(currentPosition), r)
      ensures targetPosition == old(targetPosition) && triggers == old(triggers)
    {
      if r.err.Some? {
        return;
      }
      currentPosition := r.val;
    }
  }
}

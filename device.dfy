/** The device record the hub client hands out (hm/device.go). */
module HmDevice {
  import opened Wrappers

  /** Capability tag of a device; Go declares it as `int` constants 0, 1 and 2. */
  datatype DeviceType = TypeNone | TypeSwitch | TypeBlind

  /** The integer each tag stands for in the source (`iota` from 0). */
  function Ordinal(t: DeviceType): (n: nat)
    ensures n <= 2
    ensures n == 0 <==> t == TypeNone
  {
    match t
    case TypeNone => 0
    case TypeSwitch => 1
    case TypeBlind => 2
  }

  /** The tag an integer stands for; only 0, 1 and 2 name one. */
  function FromOrdinal(n: int): (t: Option<DeviceType>)
    ensures t.Some? <==> 0 <= n <= 2
    ensures t.Some? ==> Ordinal(t.value) == n
  {
    if n == 0 then Some(TypeNone)
    else if n == 1 then Some(TypeSwitch)
    else if n == 2 then Some(TypeBlind)
    else None
  }

  /** The three tags are 0, 1 and 2 and the numbering is one to one. */
  lemma OrdinalRoundTrip(t: DeviceType)
    ensures FromOrdinal(Ordinal(t)) == Some(t)
    ensures Ordinal(TypeNone) == 0 && Ordinal(TypeSwitch) == 1 && Ordinal(TypeBlind) == 2
  {
  }

  /** A device: its capability, the hub address of its channel and its room name.
      The read and write accessors of the source are the tag-driven rules in module Hm. */
  datatype Device = Device(kind: DeviceType, hmAddress: string, room: string)

  /** Go's zero value of `Device`: every field is its type's zero, the integer 0 for the tag. */
  const ZeroDevice := Device(FromOrdinal(0).value, "", "")

  lemma ZeroDeviceHasNoType()
    ensures Ordinal(ZeroDevice.kind) == 0 && ZeroDevice.kind == TypeNone
  {
  }

  /** `Device.String()`: the address, a space, then the room in parentheses. */
  function Label(d: Device): (s: string)
    ensures |s| == |d.hmAddress| + |d.room| + 3
    ensures s[..|d.hmAddress|] == d.hmAddress
    ensures s[|d.hmAddress|..|d.hmAddress| + 2] == " ("
    ensures s[|d.hmAddress| + 2..|s| - 1] == d.room && s[|s| - 1] == ')'
  {
    d.hmAddress + " (" + d.room + ")"
  }

  /** First position of `c` in `s`, if any. */
  function IndexOf(s: string, c: char): (r: Option<nat>)
    ensures r.None? <==> c !in s
    ensures r.Some? ==> r.value < |s| && s[r.value] == c && c !in s[..r.value]
  {
    if |s| == 0 then None
    else if s[0] == c then Some(0)
    else match IndexOf(s[1..], c)
      case None => None
      case Some(k) => assert s[..k + 1] == [s[0]] + s[1..][..k]; Some(k + 1)
  }

  /** Reads a label back into address and room: the address is everything before
      the first " (", the room everything between it and the closing ')'. */
  function SplitLabel(s: string): Option<(string, string)> {
    match IndexOf(s, '(')
    case None => None
    case Some(k) =>
      if 1 <= k && s[k - 1] == ' ' && k + 2 <= |s| && s[|s| - 1] == ')'
      then Some((s[..k - 1], s[k + 1..|s| - 1]))
      else None
  }

  /** An address without '(' can be recovered from the label together with the room,
      so labels of such devices are distinct exactly when address or room differ. */
  lemma LabelRoundTrip(d: Device)
    requires '(' !in d.hmAddress
    ensures SplitLabel(Label(d)) == Some((d.hmAddress, d.room))
  {
  }
}

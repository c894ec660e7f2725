/**
 * The profile's device settings panel: the list of paired watches with
 * disconnect, the "add device" buttons with their scanning state, and the
 * "last synced" label.
 *
 * The two-second connection delay is an explicit `FinishConnect` event; its
 * battery draw and the new device's id (the clock reading as text) are
 * parameters.
 */
module DeviceSettings {
  import opened Wrappers
  import Text
  import LanguageContext
  import Smartwatch

  type Device = Smartwatch.Device

  // ---------------------------------------------------------------------------
  // Device catalogue
  // ---------------------------------------------------------------------------

  datatype CatalogueEntry = CatalogueEntry(kind: string, name: string)

  /** The device types offered for pairing. */
  const Catalogue: seq<CatalogueEntry> := [
    CatalogueEntry("apple_watch", "Apple Watch"),
    CatalogueEntry("galaxy_watch", "Galaxy Watch"),
    CatalogueEntry("fitbit", "Fitbit")
  ]

  /** `entries.find(d => d.type === kind)?.name`: the name of the first
      entry of that type. */
  function FindName(entries: seq<CatalogueEntry>, kind: string): (r: Option<string>)
    ensures r.None? <==> forall i :: 0 <= i < |entries| ==> entries[i].kind != kind
    ensures r.Some? ==> exists i :: 0 <= i < |entries| && entries[i].kind == kind && entries[i].name == r.value
    ensures r.Some? ==>
      exists k :: 0 <= k < |entries| && entries[k].kind == kind && entries[k].name == r.value &&
        forall i :: 0 <= i < k ==> entries[i].kind != kind
    decreases |entries|
  {
    if |entries| == 0 then None
    else if entries[0].kind == kind then Some(entries[0].name)
    else
      var r := FindName(entries[1..], kind);
      assert forall i :: 1 <= i < |entries| ==> entries[i] == entries[1..][i - 1];
      if r.Some? then
        var k :|
          0 <= k < |entries[1..]| && entries[1..][k].kind == kind && entries[1..][k].name == r.value &&
            forall i :: 0 <= i < k ==> entries[1..][i].kind != kind;
        assert entries[k + 1].kind == kind && entries[k + 1].name == r.value;
        assert forall i :: 0 <= i < k + 1 ==> entries[i].kind != kind;
        r
      else r
  }

  /** The name found is the one at the first position with the type. */
  lemma FindNameIsFirst(entries: seq<CatalogueEntry>, kind: string, k: nat)
    requires k < |entries| && entries[k].kind == kind
    requires forall i :: 0 <= i < k ==> entries[i].kind != kind
    ensures FindName(entries, kind) == Some(entries[k].name)
  {
    var r := FindName(entries, kind);
    assert r.Some?;
    var j :|
      0 <= j < |entries| && entries[j].kind == kind && entries[j].name == r.value &&
        forall i :: 0 <= i < j ==> entries[i].kind != kind;
    assert !(j < k) && !(k < j);
  }

  /** `... ?.name || 'Unknown Device'`: a missing entry, or an empty name,
      gives the fallback. */
  function CatalogueName(kind: string): (r: string)
    ensures r != ""
    ensures FindName(Catalogue, kind).None? ==> r == "Unknown Device"
    ensures FindName(Catalogue, kind).Some? && FindName(Catalogue, kind).value != "" ==>
      r == FindName(Catalogue, kind).value
  {
    match FindName(Catalogue, kind)
    case Some(n) => if n == "" then "Unknown Device" else n
    case None => "Unknown Device"
  }

  /** The panel's catalogue and the smartwatch hook's `getDeviceName` agree
      on every type code, including the fallback for unknown ones. */
  lemma CatalogueNameAgrees(kind: string)
    ensures CatalogueName(kind) == Smartwatch.DeviceName(kind)
  {
    var c := Catalogue;
    assert c[1..][1..][1..] == [];
    if kind != "apple_watch" && kind != "galaxy_watch" && kind != "fitbit" {
      assert FindName(c[1..][1..][1..], kind).None?;
    }
  }

  // ---------------------------------------------------------------------------
  // Last sync label
  // ---------------------------------------------------------------------------

  const MinuteMs: int := 60000
  const HourMs: int := 3600000

  datatype SyncLabel = JustNow | MinutesAgo(minutes: nat) | HoursAgo(hours: nat)

  lemma HoursOfMinutes(d: int)
    requires d >= 0
    ensures (d / MinuteMs) / 60 == d / HourMs
  {
    var m := d / MinuteMs;
    var h := m / 60;
    assert d == MinuteMs * m + d % MinuteMs;
    assert m == 60 * h + m % 60;
    assert d == HourMs * h + (MinuteMs * (m % 60) + d % MinuteMs);
    assert 0 <= MinuteMs * (m % 60) + d % MinuteMs < HourMs;
  }

  /** `formatLastSync`: `diffMinutes = Math.floor((now - lastSync) / 60000)`
      (Dafny's `/` by a positive divisor is the floor, also for a negative
      difference from clock skew); below one minute "just now", below an
      hour the minutes, otherwise the whole hours. */
  function FormatLastSync(now: int, lastSync: int): (r: SyncLabel)
    ensures r == JustNow <==> now - lastSync < MinuteMs
    ensures r.MinutesAgo? <==> MinuteMs <= now - lastSync < HourMs
    ensures r.HoursAgo? <==> now - lastSync >= HourMs
    ensures r.MinutesAgo? ==>
      1 <= r.minutes < 60 && r.minutes * MinuteMs <= now - lastSync < (r.minutes + 1) * MinuteMs
    ensures r.HoursAgo? ==>
      1 <= r.hours && r.hours * HourMs <= now - lastSync < (r.hours + 1) * HourMs
  {
    var diffMinutes := (now - lastSync) / MinuteMs;
    if diffMinutes < 1 then JustNow
    else if diffMinutes < 60 then MinutesAgo(diffMinutes)
    else
      HoursOfMinutes(now - lastSync);
      HoursAgo(diffMinutes / 60)
  }

  /** The label as shown in each language. */
  function RenderSync(lang: LanguageContext.Lang, sync: SyncLabel): (r: string)
    ensures sync.JustNow? ==> r == (if lang.Th? then "เมื่อสักครู่" else "Just now")
    ensures sync.MinutesAgo? ==>
      var n := Text.NatToString(sync.minutes);
      |r| > |n| && r[..|n|] == n && r[|n|] == ' ' &&
      r[|n|..] == (if lang.Th? then " นาทีที่แล้ว" else " minutes ago")
    ensures sync.HoursAgo? ==>
      var n := Text.NatToString(sync.hours);
      |r| > |n| && r[..|n|] == n && r[|n|] == ' ' &&
      r[|n|..] == (if lang.Th? then " ชั่วโมงที่แล้ว" else " hours ago")
  {
    match sync
    case JustNow => if lang.Th? then "เมื่อสักครู่" else "Just now"
    case MinutesAgo(n) => Text.NatToString(n) + (if lang.Th? then " นาทีที่แล้ว" else " minutes ago")
    case HoursAgo(h) => Text.NatToString(h) + (if lang.Th? then " ชั่วโมงที่แล้ว" else " hours ago")
  }

  /** The number at the head of a minutes or hours label reads back as the
      count the label was made from. */
  lemma RenderSyncReadsBack(lang: LanguageContext.Lang, sync: SyncLabel)
    requires !sync.JustNow?
    ensures var n := if sync.MinutesAgo? then sync.minutes else sync.hours;
      var k := |Text.NatToString(n)|;
      var r := RenderSync(lang, sync);
      k < |r| && Text.AllDigits(r[..k]) && Text.ParseDigits(r[..k]) == n
  {
    var n := if sync.MinutesAgo? then sync.minutes else sync.hours;
    Text.ParseNatToString(n);
  }

  // ---------------------------------------------------------------------------
  // Panel state
  // ---------------------------------------------------------------------------

  /** The paired devices and, while a connection is under way, the type code
      it was started for (`isScanning` is `scanning.Some?`). */
  datatype Panel = Panel(devices: seq<Device>, scanning: Option<string>)

  /** `connectedDevices.some(d => d.type === kind)`. */
  predicate HasKind(devices: seq<Device>, kind: string)
    decreases |devices|
  {
    |devices| > 0 && (devices[0].kind == kind || HasKind(devices[1..], kind))
  }

  lemma {:induction false} HasKindIff(devices: seq<Device>, kind: string)
    ensures HasKind(devices, kind) <==> exists i :: 0 <= i < |devices| && devices[i].kind == kind
    decreases |devices|
  {
    if |devices| > 0 {
      HasKindIff(devices[1..], kind);
      assert forall i :: 1 <= i < |devices| ==> devices[i] == devices[1..][i - 1];
    }
  }

  /** The connect button's `disabled` expression. */
  predicate ConnectDisabled(p: Panel, kind: string) {
    p.scanning.Some? || HasKind(p.devices, kind)
  }

  datatype ButtonLabel = Connecting | Connected | Connect

  /** The connect button's caption. */
  function ButtonLabelOf(p: Panel, kind: string): ButtonLabel {
    if p.scanning.Some? then Connecting
    else if HasKind(p.devices, kind) then Connected
    else Connect
  }

  /** The caption offers "Connect" exactly when the button is enabled. */
  lemma ButtonLabelMatchesDisabled(p: Panel, kind: string)
    ensures ButtonLabelOf(p, kind) == Connect <==> !ConnectDisabled(p, kind)
  {
  }

  /** A click on the connect button: ignored while it is disabled, otherwise
      scanning starts for that type. */
  function PressConnect(p: Panel, kind: string): (r: Panel)
    ensures ConnectDisabled(p, kind) ==> r == p
    ensures !ConnectDisabled(p, kind) ==> r.devices == p.devices && r.scanning == Some(kind)
  {
    if ConnectDisabled(p, kind) then p else p.(scanning := Some(kind))
  }

  /** The connection delay elapsing: one connected device of the scanned type
      is appended, named from the catalogue, synced now, with a battery level
      of `60 + roll`; scanning stops. Without a scan under way there is no
      timer, so nothing happens. */
  function FinishConnect(p: Panel, id: string, now: int, roll: nat): (r: Panel)
    requires roll < 40
    ensures r.scanning.None?
    ensures p.scanning.None? ==> r == p
    ensures p.scanning.Some? ==>
      && |r.devices| == |p.devices| + 1
      && r.devices[..|p.devices|] == p.devices
      && var d := r.devices[|p.devices|];
      && d.id == id && d.kind == p.scanning.value && d.isConnected
      && d.name == CatalogueName(p.scanning.value)
      && d.lastSync == Some(now)
      && d.batteryLevel.Some? && 60 <= d.batteryLevel.value <= 99
  {
    match p.scanning
    case None => p
    case Some(kind) =>
      var d := Smartwatch.Device(id, kind, CatalogueName(kind), true, Some(now), Some(roll + 60));
      assert (p.devices + [d])[..|p.devices|] == p.devices;
      Panel(p.devices + [d], None)
  }

  /** `handleDisconnectDevice`: the device list without that id. */
  function Disconnect(p: Panel, id: string): (r: Panel)
    ensures forall d :: d in r.devices <==> d in p.devices && d.id != id
    ensures r.scanning == p.scanning
  {
    p.(devices := Smartwatch.Disconnect(p.devices, id))
  }

  /** The panel right after mounting: the one mock watch, synced now. */
  function Initial(now: int): (p: Panel)
    ensures |p.devices| == 1 && p.scanning.None?
    ensures p.devices[0].kind == "apple_watch" && p.devices[0].batteryLevel == Some(85)
  {
    Panel([Smartwatch.Device("1", "apple_watch", "Apple Watch Series 8", true, Some(now), Some(85))], None)
  }

  // ---------------------------------------------------------------------------
  // One device per type
  // ---------------------------------------------------------------------------

  /** No two listed devices share a type: each device's type is absent from
      the devices after it. */
  predicate DistinctKinds(ds: seq<Device>)
    decreases |ds|
  {
    |ds| == 0 || (!HasKind(ds[1..], ds[0].kind) && DistinctKinds(ds[1..]))
  }

  /** The recursive definition says what it should: no two positions hold
      the same type. */
  lemma {:induction false} DistinctKindsIff(ds: seq<Device>)
    ensures DistinctKinds(ds) <==> forall i, j :: 0 <= i < j < |ds| ==> ds[i].kind != ds[j].kind
    decreases |ds|
  {
    if |ds| > 0 {
      var tail := ds[1..];
      DistinctKindsIff(tail);
      HasKindIff(tail, ds[0].kind);
      assert forall i :: 1 <= i < |ds| ==> ds[i] == tail[i - 1];
    }
  }

  /** Each listed type appears once, and a scan under way is for a type that
      is not listed. */
  predicate OnePerKind(p: Panel) {
    DistinctKinds(p.devices) && (p.scanning.Some? ==> !HasKind(p.devices, p.scanning.value))
  }

  datatype Event = PressEvent(kind: string) | FinishEvent(id: string, now: int, roll: nat) | DisconnectEvent(id: string)

  predicate WellFormed(e: Event) {
    e.FinishEvent? ==> e.roll < 40
  }

  function Step(p: Panel, e: Event): Panel
    requires WellFormed(e)
  {
    match e
    case PressEvent(kind) => PressConnect(p, kind)
    case FinishEvent(id, now, roll) => FinishConnect(p, id, now, roll)
    case DisconnectEvent(id) => Disconnect(p, id)
  }

  lemma InitialOnePerKind(now: int)
    ensures OnePerKind(Initial(now))
  {
  }

  /** Removing devices adds no type. */
  lemma {:induction false} DisconnectKeepsHasKind(ds: seq<Device>, id: string, kind: string)
    ensures HasKind(Smartwatch.Disconnect(ds, id), kind) ==> HasKind(ds, kind)
    decreases |ds|
  {
    if |ds| > 0 {
      DisconnectKeepsHasKind(ds[1..], id, kind);
      var rest := Smartwatch.Disconnect(ds[1..], id);
      assert ([ds[0]] + rest)[1..] == rest;
    }
  }

  /** Removing devices keeps the types distinct. */
  lemma {:induction false} DisconnectKeepsDistinct(ds: seq<Device>, id: string)
    requires DistinctKinds(ds)
    ensures DistinctKinds(Smartwatch.Disconnect(ds, id))
    decreases |ds|
  {
    if |ds| > 0 {
      DisconnectKeepsDistinct(ds[1..], id);
      DisconnectKeepsHasKind(ds[1..], id, ds[0].kind);
      var rest := Smartwatch.Disconnect(ds[1..], id);
      assert ([ds[0]] + rest)[1..] == rest;
    }
  }

  /** A type is listed after an append iff it was listed before or is the new one's. */
  lemma {:induction false} HasKindAppend(ds: seq<Device>, d: Device, kind: string)
    ensures HasKind(ds + [d], kind) <==> HasKind(ds, kind) || d.kind == kind
    decreases |ds|
  {
    if |ds| > 0 {
      HasKindAppend(ds[1..], d, kind);
      assert (ds + [d])[1..] == ds[1..] + [d];
    } else {
      assert ([] + [d])[1..] == [];
    }
  }

  /** Appending a device of an unlisted type keeps the types distinct. */
  lemma {:induction false} AppendKeepsDistinct(ds: seq<Device>, d: Device)
    requires DistinctKinds(ds) && !HasKind(ds, d.kind)
    ensures DistinctKinds(ds + [d])
    decreases |ds|
  {
    if |ds| > 0 {
      AppendKeepsDistinct(ds[1..], d);
      HasKindAppend(ds[1..], d, ds[0].kind);
      assert (ds + [d])[1..] == ds[1..] + [d];
    } else {
      assert ([] + [d])[1..] == [];
    }
  }

  /** Every event keeps one device per type. */
  lemma StepKeepsOnePerKind(p: Panel, e: Event)
    requires WellFormed(e) && OnePerKind(p)
    ensures OnePerKind(Step(p, e))
  {
    match e
    case PressEvent(kind) =>
    case FinishEvent(id, now, roll) =>
      if p.scanning.Some? {
        var r := Step(p, e);
        assert r.devices == p.devices + [r.devices[|p.devices|]];
        AppendKeepsDistinct(p.devices, r.devices[|p.devices|]);
      }
    case DisconnectEvent(id) =>
      DisconnectKeepsDistinct(p.devices, id);
      if p.scanning.Some? {
        DisconnectKeepsHasKind(p.devices, id, p.scanning.value);
      }
  }

  function Run(p: Panel, es: seq<Event>): Panel
    requires forall i :: 0 <= i < |es| ==> WellFormed(es[i])
    decreases |es|
  {
    if |es| == 0 then p else Run(Step(p, es[0]), es[1..])
  }

  /** From the mounted panel, no sequence of clicks and timer firings ever
      lists two devices of one type. */
  lemma {:induction false} RunKeepsOnePerKind(p: Panel, es: seq<Event>)
    requires forall i :: 0 <= i < |es| ==> WellFormed(es[i])
    requires OnePerKind(p)
    ensures OnePerKind(Run(p, es))
    decreases |es|
  {
    if |es| > 0 {
      StepKeepsOnePerKind(p, es[0]);
      RunKeepsOnePerKind(Step(p, es[0]), es[1..]);
    }
  }
}

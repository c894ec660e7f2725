/**
 * The simulated smartwatch link: the device list with connect and disconnect,
 * the generated heart-rate and sleep readings, the bounded histories they are
 * kept in, and the accessors for the newest reading.
 *
 * Random draws (`Math.floor(Math.random() * n)`) are parameters constrained to
 * `[0, n)`; clock readings are millisecond integers supplied by the caller.
 */
module Smartwatch {
  import opened Wrappers
  import Text

  // ---------------------------------------------------------------------------
  // Devices
  // ---------------------------------------------------------------------------

  /** A paired device. `kind` is the device type code (`"apple_watch"`,
      `"galaxy_watch"`, `"fitbit"`); `lastSync` is a clock reading in ms. */
  datatype Device = Device(
    id: string,
    kind: string,
    name: string,
    isConnected: bool,
    lastSync: Option<int>,
    batteryLevel: Option<int>)

  /** The device type codes the app knows. */
  const KnownKinds: set<string> := {"apple_watch", "galaxy_watch", "fitbit"}

  /** `getDeviceName`: the display name of a type code. */
  function DeviceName(kind: string): (r: string)
    ensures kind !in KnownKinds <==> r == "Unknown Device"
    ensures r != ""
  {
    if kind == "apple_watch" then "Apple Watch"
    else if kind == "galaxy_watch" then "Galaxy Watch"
    else if kind == "fitbit" then "Fitbit"
    else "Unknown Device"
  }

  /** `connectDevice` once its simulated delay is over: one connected device
      is appended, named after its type, synced now, with a battery level of
      `60 + roll` for a draw `roll` in `[0, 40)`. */
  function ConnectDevice(devices: seq<Device>, kind: string, id: string, now: int, roll: nat): (r: (seq<Device>, Device))
    requires roll < 40
    ensures r.0 == devices + [r.1]
    ensures r.1.id == id && r.1.kind == kind && r.1.isConnected
    ensures r.1.name == DeviceName(kind)
    ensures r.1.lastSync == Some(now)
    ensures r.1.batteryLevel.Some? && 60 <= r.1.batteryLevel.value <= 99
  {
    var d := Device(id, kind, DeviceName(kind), true, Some(now), Some(roll + 60));
    (devices + [d], d)
  }

  /** `disconnectDevice`: `devices.filter(d => d.id !== id)`. */
  function Disconnect(devices: seq<Device>, id: string): (r: seq<Device>)
    ensures |r| <= |devices|
    ensures forall d :: d in r <==> d in devices && d.id != id
    decreases |devices|
  {
    if |devices| == 0 then []
    else
      var rest := Disconnect(devices[1..], id);
      assert devices == [devices[0]] + devices[1..];
      if devices[0].id != id then [devices[0]] + rest else rest
  }

  /** Disconnecting keeps the remaining devices in their order: the filter
      distributes over concatenation. */
  lemma {:induction false} DisconnectAppend(a: seq<Device>, b: seq<Device>, id: string)
    ensures Disconnect(a + b, id) == Disconnect(a, id) + Disconnect(b, id)
    decreases |a|
  {
    if |a| > 0 {
      assert (a + b)[1..] == a[1..] + b;
      DisconnectAppend(a[1..], b, id);
    } else {
      assert a + b == b;
    }
  }

  /** Disconnecting an id nobody has changes nothing. */
  lemma {:induction false} DisconnectAbsent(devices: seq<Device>, id: string)
    requires forall i :: 0 <= i < |devices| ==> devices[i].id != id
    ensures Disconnect(devices, id) == devices
    decreases |devices|
  {
    if |devices| > 0 {
      DisconnectAbsent(devices[1..], id);
      assert devices == [devices[0]] + devices[1..];
    }
  }

  /** Connecting a device under a fresh id and then disconnecting that id
      restores the list. */
  lemma ConnectThenDisconnect(devices: seq<Device>, kind: string, id: string, now: int, roll: nat)
    requires roll < 40
    requires forall i :: 0 <= i < |devices| ==> devices[i].id != id
    ensures Disconnect(ConnectDevice(devices, kind, id, now, roll).0, id) == devices
  {
    var r := ConnectDevice(devices, kind, id, now, roll);
    DisconnectAppend(devices, [r.1], id);
    DisconnectAbsent(devices, id);
    assert Disconnect([r.1], id) == [];
  }

  /** `hasConnectedDevice`: `devices.some(d => d.isConnected)`. */
  predicate HasConnectedDevice(devices: seq<Device>)
    decreases |devices|
  {
    |devices| > 0 && (devices[0].isConnected || HasConnectedDevice(devices[1..]))
  }

  lemma {:induction false} HasConnectedDeviceIff(devices: seq<Device>)
    ensures HasConnectedDevice(devices) <==> exists i :: 0 <= i < |devices| && devices[i].isConnected
    decreases |devices|
  {
    if |devices| > 0 {
      HasConnectedDeviceIff(devices[1..]);
      if HasConnectedDevice(devices[1..]) {
        var i :| 0 <= i < |devices[1..]| && devices[1..][i].isConnected;
        assert devices[i + 1].isConnected;
      }
      if exists i :: 0 <= i < |devices| && devices[i].isConnected {
        var i :| 0 <= i < |devices| && devices[i].isConnected;
        if i > 0 {
          assert devices[1..][i - 1].isConnected;
        }
      }
    }
  }

  /** After a connection some device is connected. */
  lemma ConnectedAfterConnect(devices: seq<Device>, kind: string, id: string, now: int, roll: nat)
    requires roll < 40
    ensures HasConnectedDevice(ConnectDevice(devices, kind, id, now, roll).0)
  {
    var r := ConnectDevice(devices, kind, id, now, roll);
    HasConnectedDeviceIff(r.0);
    assert r.0[|devices|].isConnected;
  }

  // ---------------------------------------------------------------------------
  // Heart rate
  // ---------------------------------------------------------------------------

  datatype StressLevel = Low | Medium | High

  /** The stress level read off a heart rate (beats per minute). */
  function StressLevelOf(heartRate: int): (r: StressLevel)
    ensures r == High <==> heartRate > 90
    ensures r == Medium <==> 80 < heartRate <= 90
    ensures r == Low <==> heartRate <= 80
  {
    if heartRate > 90 then High else if heartRate > 80 then Medium else Low
  }

  datatype HeartRateReading = HeartRateReading(heartRate: int, stressLevel: StressLevel)

  /** `generateHeartRateData`: a base of 70 plus a variation `roll - 15` for a
      draw `roll` in `[0, 30)`. */
  function GenerateHeartRate(roll: nat): (r: HeartRateReading)
    requires roll < 30
    ensures 55 <= r.heartRate <= 84
    ensures r.stressLevel == StressLevelOf(r.heartRate)
  {
    var heartRate := 70 + (roll - 15);
    HeartRateReading(heartRate, StressLevelOf(heartRate))
  }

  /** The generator never produces a high stress level, and produces a
      medium one exactly for the four largest draws. */
  lemma GeneratedStressLevels(roll: nat)
    requires roll < 30
    ensures GenerateHeartRate(roll).stressLevel != High
    ensures GenerateHeartRate(roll).stressLevel == Medium <==> roll >= 26
  {
  }

  // ---------------------------------------------------------------------------
  // Sleep
  // ---------------------------------------------------------------------------

  datatype SleepQuality = Good | Average | Poor

  /** A generated night. The fractional duration is not modelled. */
  datatype SleepRecord = SleepRecord(
    quality: SleepQuality,
    bedtime: string,
    wakeTime: string,
    deepSleep: int,
    lightSleep: int,
    remSleep: int)

  /** `"HH:" + String(m).padStart(2, '0')`, with the `"HH:"` part given as `prefix`. */
  function ClockAt(prefix: string, minute: nat): (r: string)
    requires |prefix| == 3 && minute < 60
    ensures |r| == 5 && r[..3] == prefix
    ensures Text.AllDigits(r[3..]) && Text.ParseDigits(r[3..]) == minute
  {
    var mm := Text.PadStart(Text.NatToString(minute), 2, '0');
    Text.ParsePadded(minute, 2);
    assert (prefix + mm)[3..] == mm;
    prefix + mm
  }

  /** The draws behind one generated night, each within its range. */
  datatype SleepDraws = SleepDraws(quality: nat, bed: nat, wake: nat, deep: nat, light: nat, rem: nat)

  predicate DrawsInRange(d: SleepDraws) {
    d.quality < 3 && d.bed < 60 && d.wake < 60 && d.deep < 20 && d.light < 20 && d.rem < 15
  }

  /** `generateSleepData`: bedtime in the 23rd hour, wake time in the 7th,
      deep sleep 15–34, light sleep 50–69 and REM sleep 10–24 percent. */
  function GenerateSleep(d: SleepDraws): (r: SleepRecord)
    requires DrawsInRange(d)
    ensures |r.bedtime| == 5 && r.bedtime[..3] == "23:"
    ensures Text.AllDigits(r.bedtime[3..]) && Text.ParseDigits(r.bedtime[3..]) == d.bed
    ensures |r.wakeTime| == 5 && r.wakeTime[..3] == "07:"
    ensures Text.AllDigits(r.wakeTime[3..]) && Text.ParseDigits(r.wakeTime[3..]) == d.wake
    ensures 15 <= r.deepSleep <= 34 && 50 <= r.lightSleep <= 69 && 10 <= r.remSleep <= 24
  {
    var quality := [Good, Average, Poor][d.quality];
    SleepRecord(quality, ClockAt("23:", d.bed), ClockAt("07:", d.wake), d.deep + 15, d.light + 50, d.rem + 10)
  }

  // ---------------------------------------------------------------------------
  // Bounded histories
  // ---------------------------------------------------------------------------

  /** `xs.slice(-k)`. For `k > 0` this is the last `min(k, |xs|)` elements;
      `-0` is `0`, so `slice(-0)` is the whole sequence. */
  function SliceFromEnd<T>(xs: seq<T>, k: nat): (r: seq<T>)
    ensures k > 0 ==> |r| == if |xs| < k then |xs| else k
    ensures k == 0 ==> r == xs
    ensures r == xs[|xs| - |r|..]
  {
    if k == 0 || |xs| <= k then xs else xs[|xs| - k..]
  }

  /** `[...prev.slice(-keep), x]`: the new reading after at most `keep` old ones. */
  function AppendBounded<T>(xs: seq<T>, x: T, keep: nat): (r: seq<T>)
    requires keep > 0
    ensures |r| <= keep + 1 && |r| <= |xs| + 1
    ensures |r| > 0 && r[|r| - 1] == x
    ensures r[..|r| - 1] == xs[|xs| - (|r| - 1)..]
  {
    var r := SliceFromEnd(xs, keep) + [x];
    assert r[..|r| - 1] == SliceFromEnd(xs, keep);
    r
  }

  /** Appending a batch of readings one at a time. */
  function AppendAll<T>(xs: seq<T>, ys: seq<T>, keep: nat): seq<T>
    requires keep > 0
    decreases |ys|
  {
    if |ys| == 0 then xs else AppendAll(AppendBounded(xs, ys[0], keep), ys[1..], keep)
  }

  /** One bounded append keeps the last `keep + 1` readings of everything so far. */
  lemma AppendBoundedIsWindow<T>(xs: seq<T>, x: T, keep: nat)
    requires keep > 0
    ensures AppendBounded(xs, x, keep) == SliceFromEnd(xs + [x], keep + 1)
  {
    if |xs| > keep {
      TailOfSnoc(xs, x, |xs| - keep);
    }
  }

  lemma TailOfSnoc<T>(xs: seq<T>, x: T, n: nat)
    requires n <= |xs|
    ensures (xs + [x])[n..] == xs[n..] + [x]
  {
  }

  lemma SliceOfSlice<T>(xs: seq<T>, k: nat)
    requires k > 0
    ensures SliceFromEnd(SliceFromEnd(xs, k), k) == SliceFromEnd(xs, k)
  {
  }

  /** However many readings arrive, the history is exactly the last
      `keep + 1` readings ever recorded. */
  lemma {:induction false} AppendAllIsWindow<T>(xs: seq<T>, ys: seq<T>, keep: nat)
    requires keep > 0 && |ys| > 0
    ensures AppendAll(xs, ys, keep) == SliceFromEnd(xs + ys, keep + 1)
    decreases |ys|
  {
    var y, rest := ys[0], ys[1..];
    var xs' := AppendBounded(xs, y, keep);
    AppendBoundedIsWindow(xs, y, keep);
    ConcatSplit(xs, ys);
    if |rest| == 0 {
      assert xs + [y] == xs + ys;
    } else {
      AppendAllIsWindow(xs', rest, keep);
      WindowOfWindow(xs + [y], rest, keep + 1);
    }
  }

  lemma ConcatSplit<T>(xs: seq<T>, ys: seq<T>)
    requires |ys| > 0
    ensures xs + ys == (xs + [ys[0]]) + ys[1..]
  {
    assert ys == [ys[0]] + ys[1..];
  }

  /** Taking the last `k` of a window and some new readings is the same as
      taking the last `k` of everything. */
  lemma WindowOfWindow<T>(a: seq<T>, b: seq<T>, k: nat)
    requires k > 0
    ensures SliceFromEnd(SliceFromEnd(a, k) + b, k) == SliceFromEnd(a + b, k)
  {
    var w := SliceFromEnd(a, k);
    var lhs := SliceFromEnd(w + b, k);
    var rhs := SliceFromEnd(a + b, k);
    assert |lhs| == |rhs|;
    forall i | 0 <= i < |lhs|
      ensures lhs[i] == rhs[i]
    {
      var j := |lhs| - 1 - i;
      if j < |b| {
        assert lhs[i] == b[|b| - 1 - j];
        assert rhs[i] == b[|b| - 1 - j];
      } else {
        assert lhs[i] == w[|w| - 1 - (j - |b|)];
        assert rhs[i] == a[|a| - 1 - (j - |b|)];
      }
    }
  }

  /** The heart-rate history keeps the last 100 readings, the sleep history the last 7 nights. */
  const HeartRateKeep: nat := 99
  const SleepKeep: nat := 6

  /** `getLatestHeartRate` / `getLatestSleep`: the newest entry, `None` for `null`. */
  function Latest<T>(xs: seq<T>): (r: Option<T>)
    ensures r.None? <==> |xs| == 0
    ensures r.Some? ==> r.value == xs[|xs| - 1]
  {
    if |xs| > 0 then Some(xs[|xs| - 1]) else None
  }

  /** The simulated feed's state. */
  datatype Watch = Watch(
    devices: seq<Device>,
    heartRates: seq<HeartRateReading>,
    sleeps: seq<SleepRecord>,
    isConnecting: bool)

  predicate Bounded(w: Watch) {
    |w.heartRates| <= HeartRateKeep + 1 && |w.sleeps| <= SleepKeep + 1
  }

  /** The 30-second interval: one generated reading joins the history. */
  function HeartRateTick(w: Watch, roll: nat): (r: Watch)
    requires roll < 30
    ensures Bounded(w) ==> Bounded(r)
    ensures |r.heartRates| <= 100
    ensures Latest(r.heartRates) == Some(GenerateHeartRate(roll))
    ensures r.devices == w.devices && r.sleeps == w.sleeps && r.isConnecting == w.isConnecting
  {
    w.(heartRates := AppendBounded(w.heartRates, GenerateHeartRate(roll), HeartRateKeep))
  }

  /** The daily interval: one generated night joins the history. */
  function SleepTick(w: Watch, d: SleepDraws): (r: Watch)
    requires DrawsInRange(d)
    ensures Bounded(w) ==> Bounded(r)
    ensures |r.sleeps| <= 7
    ensures Latest(r.sleeps) == Some(GenerateSleep(d))
    ensures r.devices == w.devices && r.heartRates == w.heartRates && r.isConnecting == w.isConnecting
  {
    w.(sleeps := AppendBounded(w.sleeps, GenerateSleep(d), SleepKeep))
  }

  /** `connectDevice` split at its `await`: first the flag goes up... */
  function BeginConnect(w: Watch): (r: Watch)
    ensures r.isConnecting && r.devices == w.devices
  {
    w.(isConnecting := true)
  }

  /** ...then the device is appended and the flag comes down. */
  function FinishConnect(w: Watch, kind: string, id: string, now: int, roll: nat): (r: Watch)
    requires roll < 40
    ensures !r.isConnecting
    ensures |r.devices| == |w.devices| + 1 && r.devices[..|w.devices|] == w.devices
    ensures HasConnectedDevice(r.devices)
    ensures r.heartRates == w.heartRates && r.sleeps == w.sleeps
  {
    ConnectedAfterConnect(w.devices, kind, id, now, roll);
    w.(devices := ConnectDevice(w.devices, kind, id, now, roll).0, isConnecting := false)
  }
}

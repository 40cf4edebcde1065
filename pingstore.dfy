/** The ping store behind `TimeclockEndpoint`: a map from device id to the
    timestamps recorded for it in arrival order, the append of
    `addClockEntry`, and the range query of `getPings`. */
module PingStore {
  import opened Wrappers
  import opened TimeParsing

  type DeviceId = string
  type Store = map<DeviceId, seq<int>>

  /** The device id that asks `getPings` for every device. */
  const ALL: DeviceId := "all"

  /** Why a request fails where the Python code raises. */
  datatype Fault =
    | NoMatch                   // `regexData[0]` on an empty findall result
    | WrongGroupCount(count: nat) // tuple unpacking of the first match fails
    | NotAnInteger(text: string)  // `int(time)` raises
    | NotATime(text: string)      // `strptime` raises inside `parseTime`

  /** What `getPings` returns: one device's list, or a dict over all devices. */
  datatype Pings = DevicePings(times: seq<int>) | AllPings(table: Store)

  /** `addClockEntry`'s change to the store: create the device's list if
      absent, then append `t`. */
  function AppendPing(store: Store, device: DeviceId, t: int): Store
  {
    store[device := (if device in store then store[device] else []) + [t]]
  }

  /** Recording `ts` for `device` one after another. */
  function AppendPings(store: Store, device: DeviceId, ts: seq<int>): Store
  {
    if ts == [] then store else AppendPing(AppendPings(store, device, ts[..|ts| - 1]), device, ts[|ts| - 1])
  }

  /** The test of `getPings`: `from_ <= t <= to` in the "all" branch
      (`closed`), `from_ <= t < to` for a single device. */
  predicate InWindow(t: int, lo: int, hi: int, closed: bool) {
    lo <= t && (if closed then t <= hi else t < hi)
  }

  /** The timestamps of `s` inside the window, in their stored order. */
  function Within(s: seq<int>, lo: int, hi: int, closed: bool): seq<int>
  {
    if s == [] then []
    else
      var rest := Within(s[..|s| - 1], lo, hi, closed);
      if InWindow(s[|s| - 1], lo, hi, closed) then rest + [s[|s| - 1]] else rest
  }

  /** The upper bound of the query: `parseTime(to) if to else from_ + 86400`
      (an absent or empty `to` is falsy). */
  function UpperBound(lo: int, to: Option<string>): Result<int, Fault>
  {
    if to.None? || to.value == "" then Success(lo + SECONDS_PER_DAY)
    else match ParseTime(to.value)
      case Some(hi) => Success(hi)
      case None => Failure(NotATime(to.value))
  }

  /** `getPings(device, from_, to)` on `store`. */
  function Query(store: Store, device: DeviceId, from_: string, to: Option<string>): Result<Pings, Fault>
  {
    match ParseTime(from_)
    case None => Failure(NotATime(from_))
    case Some(lo) =>
      match UpperBound(lo, to)
      case Failure(f) => Failure(f)
      case Success(hi) =>
        if device == ALL then Success(AllPings(map d | d in store :: Within(store[d], lo, hi, true)))
        else if device !in store then Success(DevicePings([]))
        else Success(DevicePings(Within(store[device], lo, hi, false)))
  }

  /** An inner loop of `getPings`: collect the pings of `s` inside the window. */
  method SelectWindow(s: seq<int>, lo: int, hi: int, closed: bool) returns (times: seq<int>)
    ensures times == Within(s, lo, hi, closed)
  {
    times := [];
    for k := 0 to |s|
      invariant times == Within(s[..k], lo, hi, closed)
    {
      assert s[..k + 1][..k] == s[..k];
      if InWindow(s[k], lo, hi, closed) {
        times := times + [s[k]];
      }
    }
    assert s[..|s|] == s;
  }

  // ---------------------------------------------------------------------
  // The window filter

  /** The window filter is applied element by element: it keeps order. */
  lemma {:induction false} WithinConcat(a: seq<int>, b: seq<int>, lo: int, hi: int, closed: bool)
    ensures Within(a + b, lo, hi, closed) == Within(a, lo, hi, closed) + Within(b, lo, hi, closed)
  {
    if b != [] {
      var b' := b[..|b| - 1];
      assert (a + b)[..|a + b| - 1] == a + b';
      WithinConcat(a, b', lo, hi, closed);
    } else {
      assert a + b == a;
    }
  }

  /** The filter keeps every occurrence of a timestamp inside the window and
      none outside it. */
  lemma {:induction false} WithinCounts(s: seq<int>, lo: int, hi: int, closed: bool)
    ensures forall t :: multiset(Within(s, lo, hi, closed))[t] == if InWindow(t, lo, hi, closed) then multiset(s)[t] else 0
  {
    if s != [] {
      var s' := s[..|s| - 1];
      WithinCounts(s', lo, hi, closed);
      assert s == s' + [s[|s| - 1]];
      assert multiset(s) == multiset(s') + multiset{s[|s| - 1]};
    }
  }

  /** When every ping is inside the window, the filter keeps them all. */
  lemma {:induction false} WithinKeepsAll(s: seq<int>, lo: int, hi: int, closed: bool)
    requires forall i :: 0 <= i < |s| ==> InWindow(s[i], lo, hi, closed)
    ensures Within(s, lo, hi, closed) == s
  {
    if s != [] {
      WithinKeepsAll(s[..|s| - 1], lo, hi, closed);
      assert s[..|s| - 1] + [s[|s| - 1]] == s;
    }
  }

  /** When no ping is inside the window, the filter gives `[]`. */
  lemma {:induction false} WithinKeepsNone(s: seq<int>, lo: int, hi: int, closed: bool)
    requires forall i :: 0 <= i < |s| ==> !InWindow(s[i], lo, hi, closed)
    ensures Within(s, lo, hi, closed) == []
  {
    if s != [] {
      WithinKeepsNone(s[..|s| - 1], lo, hi, closed);
    }
  }

  // ---------------------------------------------------------------------
  // Recording pings

  /** Recording `ts` for a device leaves the other devices alone and gives
      that device its old list followed by `ts`, duplicates included. */
  lemma {:induction false} AppendPingsEffect(store: Store, device: DeviceId, ts: seq<int>)
    ensures var s' := AppendPings(store, device, ts);
      && s'.Keys == store.Keys + (if ts == [] then {} else {device})
      && (forall d :: d in store && d != device ==> s'[d] == store[d])
      && (device in s' ==> s'[device] == (if device in store then store[device] else []) + ts)
  {
    if ts != [] {
      var init := ts[..|ts| - 1];
      AppendPingsEffect(store, device, init);
      var old' := if device in store then store[device] else [];
      assert old' + init + [ts[|ts| - 1]] == old' + ts;
    }
  }

  // ---------------------------------------------------------------------
  // Querying

  /** A known device (other than "all") gets exactly its stored pings with
      `from_ <= t < to`, in stored order. */
  lemma QueryKnownDevice(store: Store, device: DeviceId, from_: string, to: Option<string>, lo: int, hi: int)
    requires device != ALL && device in store
    requires ParseTime(from_) == Some(lo) && UpperBound(lo, to) == Success(hi)
    ensures Query(store, device, from_, to) == Success(DevicePings(Within(store[device], lo, hi, false)))
    ensures forall t :: multiset(Query(store, device, from_, to).value.times)[t]
                        == if lo <= t < hi then multiset(store[device])[t] else 0
  {
    WithinCounts(store[device], lo, hi, false);
  }

  /** The "all" query has a key for every device, even one with no ping in
      range, and each value holds exactly that device's pings with
      `from_ <= t <= to`, in stored order. */
  lemma QueryAllDevices(store: Store, from_: string, to: Option<string>, lo: int, hi: int)
    requires ParseTime(from_) == Some(lo) && UpperBound(lo, to) == Success(hi)
    ensures Query(store, ALL, from_, to).Success? && Query(store, ALL, from_, to).value.AllPings?
    ensures var table := Query(store, ALL, from_, to).value.table;
      && table.Keys == store.Keys
      && (forall d :: d in store ==> table[d] == Within(store[d], lo, hi, true))
      && (forall d, t :: d in store ==> multiset(table[d])[t] == if lo <= t <= hi then multiset(store[d])[t] else 0)
      && (forall d :: d in store && (forall i :: 0 <= i < |store[d]| ==> !(lo <= store[d][i] <= hi)) ==> table[d] == [])
  {
    forall d | d in store
      ensures forall t :: multiset(Within(store[d], lo, hi, true))[t] == if lo <= t <= hi then multiset(store[d])[t] else 0
      ensures (forall i :: 0 <= i < |store[d]| ==> !(lo <= store[d][i] <= hi)) ==> Within(store[d], lo, hi, true) == []
    {
      WithinCounts(store[d], lo, hi, true);
      if forall i :: 0 <= i < |store[d]| ==> !(lo <= store[d][i] <= hi) {
        WithinKeepsNone(store[d], lo, hi, true);
      }
    }
  }

  /** A device that is not recorded (and is not "all") gets `[]`, not an
      error, once the times parse. */
  lemma QueryUnknownDevice(store: Store, device: DeviceId, from_: string, to: Option<string>)
    requires device != ALL && device !in store
    requires ParseTime(from_).Some? && UpperBound(ParseTime(from_).value, to).Success?
    ensures Query(store, device, from_, to) == Success(DevicePings([]))
  {
  }

  /** Without `to` the window ends one day after `from_`. */
  lemma QueryDefaultUpperBound(store: Store, device: DeviceId, from_: string, lo: int)
    requires ParseTime(from_) == Some(lo)
    ensures UpperBound(lo, None) == Success(lo + SECONDS_PER_DAY)
    ensures Query(store, device, from_, None) == Query(store, device, from_, Some(ShowInt(lo + SECONDS_PER_DAY)))
  {
    ParseTimeOfInteger(lo + SECONDS_PER_DAY);
  }

  /** A `from_`, or a non-empty `to`, that is neither an integer nor a
      date makes `getPings` raise, and `from_` is parsed first. */
  lemma QueryRejectsBadTimes(store: Store, device: DeviceId, from_: string, to: Option<string>)
    ensures ParseTime(from_).None? ==> Query(store, device, from_, to) == Failure(NotATime(from_))
    ensures ParseTime(from_).Some? && to.Some? && to.value != "" && ParseTime(to.value).None?
        ==> Query(store, device, from_, to) == Failure(NotATime(to.value))
  {
  }

  /** With from = to = T, a single-device query answers an empty list, even
      for a device with a ping at T, while the "all" query keeps that ping. */
  lemma BoundaryAsymmetry(store: Store, device: DeviceId, t: int)
    requires device != ALL && device in store && t in store[device]
    ensures var q := Query(store, device, ShowInt(t), Some(ShowInt(t)));
      q.Success? && q.value.DevicePings? && q.value.times == []
    ensures var q := Query(store, ALL, ShowInt(t), Some(ShowInt(t)));
      q.Success? && q.value.AllPings? && device in q.value.table && t in q.value.table[device]
  {
    ParseTimeOfInteger(t);
    var s := store[device];
    assert multiset(s)[t] > 0;
    WithinKeepsNone(s, t, t, false);
    WithinCounts(s, t, t, true);
    assert multiset(Within(s, t, t, true))[t] > 0;
  }

  /** Pings recorded in order for a new device, all within
      [first recorded, hi), come back from the query exactly as recorded. */
  lemma QueryAfterAppends(store: Store, device: DeviceId, ts: seq<int>, hi: int)
    requires device != ALL && device !in store && |ts| > 0
    requires forall i :: 0 <= i < |ts| ==> ts[0] <= ts[i] < hi
    ensures Query(AppendPings(store, device, ts), device, ShowInt(ts[0]), Some(ShowInt(hi))) == Success(DevicePings(ts))
  {
    var recorded := AppendPings(store, device, ts);
    AppendPingsEffect(store, device, ts);
    assert device in recorded && recorded[device] == ts by {
      assert [] + ts == ts;
    }
    ParseTimeOfInteger(ts[0]);
    ParseTimeOfInteger(hi);
    QueryKnownDevice(recorded, device, ShowInt(ts[0]), Some(ShowInt(hi)), ts[0], hi);
    WithinKeepsAll(ts, ts[0], hi, false);
  }
}

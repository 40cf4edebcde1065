/** `TimeclockEndpoint`: the four request handlers over the ping store, the
    order in which they are registered with the event manager, and the path
    from a request to its response (`callEvent` and the callback it calls).
    The HTTP transport (`do_GET`, `do_POST`) is not part of this model. */
module Server {
  import opened Wrappers
  import opened TimeParsing
  import opened PingStore
  import opened EventManager

  /** The callbacks the endpoint registers, as tags. */
  datatype Callback = OnClearData | OnAddClockEntry | OnGetDevices | OnGetClockEntry

  /** A response body: literal text, or the value that `json.dumps` writes out. */
  datatype Body = Text(text: string) | PingList(times: seq<int>) | PingTable(table: Store)

  /** A handler's `(message, code)`, or the exception it raises instead. */
  datatype Outcome = Reply(body: Body, status: int) | Crash(fault: Fault)

  const OK: Outcome := Reply(Text(""), 200)

  const CLEAR_DATA_ROUTE: Regex := "/clear_data"
  const ADD_ENTRY_ROUTE: Regex := "^/(.*?)/(.*?)$"
  const DEVICES_ROUTE: Regex := "/devices"
  const PING_ROUTES: seq<Regex> :=
    ["^/(all)/(.{10})$", "^/(.{36})/(.{10})$", "^/(all)/(.{10})/(.{10})$", "^/(.{36})/(.{10})/(.{10})$"]

  function PingsBody(p: Pings): Body {
    match p
    case DevicePings(ts) => PingList(ts)
    case AllPings(table) => PingTable(table)
  }

  /** `itemID, time = regexData[0]` */
  function EntryArguments(regexData: Finds): Result<(DeviceId, string), Fault>
  {
    if |regexData| == 0 then Failure(NoMatch)
    else if |regexData[0]| != 2 then Failure(WrongGroupCount(|regexData[0]|))
    else Success((regexData[0][0], regexData[0][1]))
  }

  /** The unpacking in `getClockEntry`: two groups leave `to` as `None`, any
      other count must be three. */
  function QueryArguments(regexData: Finds): Result<(DeviceId, string, Option<string>), Fault>
  {
    if |regexData| == 0 then Failure(NoMatch)
    else
      var g := regexData[0];
      if |g| == 2 then Success((g[0], g[1], None))
      else if |g| == 3 then Success((g[0], g[1], Some(g[2])))
      else Failure(WrongGroupCount(|g|))
  }

  /** What a callback does: the store afterwards and its outcome. */
  function Handle(callback: Callback, store: Store, regexData: Finds): (Store, Outcome)
  {
    match callback
    case OnClearData => (map[], OK)
    case OnAddClockEntry =>
      (match EntryArguments(regexData)
       case Failure(f) => (store, Crash(f))
       case Success((device, time)) =>
         match ParseInteger(time)
         case None => (store, Crash(NotAnInteger(time)))
         case Some(t) => (AppendPing(store, device, t), OK))
    case OnGetDevices => (store, Reply(PingTable(store), 200))
    case OnGetClockEntry =>
      (match QueryArguments(regexData)
       case Failure(f) => (store, Crash(f))
       case Success((device, from_, to)) =>
         match Query(store, device, from_, to)
         case Failure(f) => (store, Crash(f))
         case Success(p) => (store, Reply(PingsBody(p), 200)))
  }

  /** The answer to a request once `callEvent` has chosen: call the callback,
      or `("[]", 404)`. */
  function Respond(store: Store, d: Dispatch<Callback>): (Store, Outcome)
  {
    match d
    case NotFound => (store, Reply(Text(NOT_FOUND_BODY), NOT_FOUND_STATUS))
    case Matched(callback, finds) => Handle(callback, store, finds)
  }

  class TimeclockEndpoint {
    /** The in-memory store (`TimeclockEndpoint.data`). */
    var data: Store
    /** What `save()` last wrote to the backing file. */
    ghost var saved: Store

    /** `FileHandler()`: the store as loaded from the backing file. */
    constructor (loaded: Store)
      ensures data == loaded && saved == loaded
    {
      data, saved := loaded, loaded;
    }

    /** `clearData`: empty the store and save it. */
    method ClearData(regexData: Finds) returns (o: Outcome)
      modifies this
      ensures data == map[] && saved == data && o == OK
      ensures (data, o) == Handle(OnClearData, old(data), regexData)
    {
      data := map[];
      saved := data;
      o := OK;
    }

    /** `addClockEntry`: append the timestamp to the device's list, creating
        the list for a new device, then save. */
    method AddClockEntry(regexData: Finds) returns (o: Outcome)
      modifies this
      ensures (data, o) == Handle(OnAddClockEntry, old(data), regexData)
      ensures o.Crash? ==> data == old(data) && saved == old(saved)
      ensures o.Reply? ==> o == OK && saved == data
      ensures o.Reply? ==>
        var (device, time) := EntryArguments(regexData).value;
        && ParseInteger(time).Some?
        && data.Keys == old(data).Keys + {device}
        && data[device] == (if device in old(data) then old(data)[device] else []) + [ParseInteger(time).value]
        && (forall d :: d in old(data) && d != device ==> data[d] == old(data)[d])
    {
      var args := EntryArguments(regexData);
      if args.Failure? {
        return Crash(args.error);
      }
      var (itemId, time) := args.value;
      var t := ParseInteger(time);
      if t.None? {
        return Crash(NotAnInteger(time));
      }
      if itemId !in data {
        assert [] + [t.value] == [t.value];
        data := data[itemId := [t.value]];
      } else {
        data := data[itemId := data[itemId] + [t.value]];
      }
      saved := data;
      return OK;
    }

    /** `getDevices`: the whole store; nothing changes. */
    method GetDevices(regexData: Finds) returns (o: Outcome)
      ensures (data, o) == Handle(OnGetDevices, data, regexData)
    {
      return Reply(PingTable(data), 200);
    }

    /** `getPings`: parse the times, then filter the devices' pings. */
    method GetPings(device: DeviceId, from_: string, to: Option<string>) returns (r: Result<Pings, Fault>)
      ensures r == Query(data, device, from_, to)
    {
      var lo := ParseTime(from_);
      if lo.None? {
        return Failure(NotATime(from_));
      }
      var hi: int;
      if to.Some? && to.value != "" {
        var parsed := ParseTime(to.value);
        if parsed.None? {
          return Failure(NotATime(to.value));
        }
        hi := parsed.value;
      } else {
        hi := lo.value + SECONDS_PER_DAY;
      }
      if device == ALL {
        var times: Store := map[];
        var pending := data.Keys;
        while pending != {}
          invariant pending <= data.Keys
          invariant times.Keys == data.Keys - pending
          invariant forall d :: d in times ==> times[d] == Within(data[d], lo.value, hi, true)
          decreases pending
        {
          var d :| d in pending;
          var selected := SelectWindow(data[d], lo.value, hi, true);
          times := times[d := selected];
          pending := pending - {d};
        }
        assert times == map d | d in data :: Within(data[d], lo.value, hi, true);
        return Success(AllPings(times));
      } else if device !in data {
        return Success(DevicePings([]));
      } else {
        var selected := SelectWindow(data[device], lo.value, hi, false);
        return Success(DevicePings(selected));
      }
    }

    /** `getClockEntry`: unpack the groups, query, answer with the pings. */
    method GetClockEntry(regexData: Finds) returns (o: Outcome)
      ensures (data, o) == Handle(OnGetClockEntry, data, regexData)
    {
      var args := QueryArguments(regexData);
      if args.Failure? {
        return Crash(args.error);
      }
      var (device, from_, to) := args.value;
      var pings := GetPings(device, from_, to);
      if pings.Failure? {
        return Crash(pings.error);
      }
      return Reply(PingsBody(pings.value), 200);
    }

    /** Call the callback a tag stands for. */
    method Invoke(callback: Callback, regexData: Finds) returns (o: Outcome)
      modifies this
      ensures (data, o) == Handle(callback, old(data), regexData)
      ensures callback == OnClearData || (callback == OnAddClockEntry && o.Reply?) ==> saved == data
      ensures callback == OnGetDevices || callback == OnGetClockEntry || o.Crash? ==> saved == old(saved)
    {
      match callback {
        case OnClearData => o := ClearData(regexData);
        case OnAddClockEntry => o := AddClockEntry(regexData);
        case OnGetDevices => o := GetDevices(regexData);
        case OnGetClockEntry => o := GetClockEntry(regexData);
      }
    }
  }

  // ---------------------------------------------------------------------
  // Registration of the routes

  /** The table the decorators of `TimeclockEndpoint` build, in their order. */
  function Routes(): Table<Callback>
  {
    RoutesOf(CLEAR_DATA_ROUTE, ADD_ENTRY_ROUTE, DEVICES_ROUTE, PING_ROUTES)
  }

  /** The four registrations, over any regexes. */
  function RoutesOf(clear: Regex, add: Regex, devices: Regex, pings: seq<Regex>): Table<Callback>
  {
    var t1 := Registered(Table([], map[]), Normalize(Single(clear)), "POST", OnClearData);
    var t2 := Registered(t1, Normalize(Single(add)), "POST", OnAddClockEntry);
    var t3 := Registered(t2, Normalize(Single(devices)), "GET", OnGetDevices);
    Registered(t3, Normalize(Many(pings)), "GET", OnGetClockEntry)
  }

  /** Build the event manager as the class body of `TimeclockEndpoint` does. */
  method RegisterRoutes() returns (m: RequestEventManager<Callback>)
    ensures fresh(m) && m.Valid() && Table(m.order, m.listeners) == Routes()
  {
    m := new RequestEventManager();
    m.AddListener(Single(CLEAR_DATA_ROUTE), "POST", OnClearData);
    m.AddListener(Single(ADD_ENTRY_ROUTE), "POST", OnAddClockEntry);
    m.AddListener(Single(DEVICES_ROUTE), "GET", OnGetDevices);
    m.AddListener(Many(PING_ROUTES), "GET", OnGetClockEntry);
  }

  /** `callEvent` followed by the callback it picks. */
  method HandleRequest(manager: RequestEventManager<Callback>, endpoint: TimeclockEndpoint, url: Url, verb: Verb, findall: FindAll)
    returns (o: Outcome)
    requires manager.Valid()
    modifies endpoint
    ensures (endpoint.data, o) == Respond(old(endpoint.data), Scan(manager.order, manager.listeners, findall, url, verb))
    ensures Scan(manager.order, manager.listeners, findall, url, verb).NotFound? ==> unchanged(endpoint)
    ensures var d := Scan(manager.order, manager.listeners, findall, url, verb);
      d.Matched? && (d.callback == OnClearData || (d.callback == OnAddClockEntry && o.Reply?)) ==> endpoint.saved == endpoint.data
    ensures var d := Scan(manager.order, manager.listeners, findall, url, verb);
      d.NotFound? || d.callback == OnGetDevices || d.callback == OnGetClockEntry || o.Crash? ==> endpoint.saved == old(endpoint.saved)
  {
    var d := manager.CallEvent(url, verb, findall);
    match d {
      case NotFound => o := Reply(Text(NOT_FOUND_BODY), NOT_FOUND_STATUS);
      case Matched(callback, finds) => o := endpoint.Invoke(callback, finds);
    }
  }

  // ---------------------------------------------------------------------
  // Properties of the routes

  /** The registered table, written out: seven regexes in decorator order,
      each with the one method and callback registered for it. */
  lemma RoutesTable()
    ensures Routes().Valid()
    ensures Routes().order == [CLEAR_DATA_ROUTE, ADD_ENTRY_ROUTE, DEVICES_ROUTE] + PING_ROUTES
    ensures Routes().entries.Keys == {CLEAR_DATA_ROUTE, ADD_ENTRY_ROUTE, DEVICES_ROUTE} + (set r | r in PING_ROUTES)
    ensures Routes().entries[CLEAR_DATA_ROUTE] == map["POST" := OnClearData]
    ensures Routes().entries[ADD_ENTRY_ROUTE] == map["POST" := OnAddClockEntry]
    ensures Routes().entries[DEVICES_ROUTE] == map["GET" := OnGetDevices]
    ensures forall r :: r in PING_ROUTES ==> Routes().entries[r] == map["GET" := OnGetClockEntry]
  {
    var p := PING_ROUTES;
    assert |CLEAR_DATA_ROUTE| == 11 && |ADD_ENTRY_ROUTE| == 14 && |DEVICES_ROUTE| == 8;
    assert |p[0]| == 16 && |p[1]| == 18 && |p[2]| == 24 && |p[3]| == 26;
    RoutesOfTable(CLEAR_DATA_ROUTE, ADD_ENTRY_ROUTE, DEVICES_ROUTE, p);
    ThreePlusMany(CLEAR_DATA_ROUTE, ADD_ENTRY_ROUTE, DEVICES_ROUTE,
      map["POST" := OnClearData], map["POST" := OnAddClockEntry], map["GET" := OnGetDevices], p, map["GET" := OnGetClockEntry]);
  }

  lemma RoutesOfTable(clear: Regex, add: Regex, devices: Regex, pings: seq<Regex>)
    requires clear != add && clear != devices && add != devices
    requires clear !in pings && add !in pings && devices !in pings
    requires forall i, j :: 0 <= i < j < |pings| ==> pings[i] != pings[j]
    ensures RoutesOf(clear, add, devices, pings).Valid()
    ensures RoutesOf(clear, add, devices, pings)
         == Table([clear, add, devices] + pings,
              map[clear := map["POST" := OnClearData], add := map["POST" := OnAddClockEntry], devices := map["GET" := OnGetDevices]]
              + (map r | r in pings :: map["GET" := OnGetClockEntry]))
  {
    var t3 := Table([clear, add, devices],
      map[clear := map["POST" := OnClearData], add := map["POST" := OnAddClockEntry], devices := map["GET" := OnGetDevices]]);
    BaseRoutesOf(clear, add, devices);
    RegisteredAllFresh(t3, pings, "GET", OnGetClockEntry);
    RegisteredValid(t3, pings, "GET", OnGetClockEntry);
  }

  lemma BaseRoutesOf(clear: Regex, add: Regex, devices: Regex)
    requires clear != add && clear != devices && add != devices
    ensures var t1 := Registered(Table([], map[]), Normalize(Single(clear)), "POST", OnClearData);
      var t2 := Registered(t1, Normalize(Single(add)), "POST", OnAddClockEntry);
      Registered(t2, Normalize(Single(devices)), "GET", OnGetDevices)
        == Table([clear, add, devices],
             map[clear := map["POST" := OnClearData], add := map["POST" := OnAddClockEntry], devices := map["GET" := OnGetDevices]])
  {
    var e: Table<Callback> := Table([], map[]);
    RegisteredOneFresh(e, clear, "POST", OnClearData);
    var t1 := Table([clear], map[clear := map["POST" := OnClearData]]);
    assert [] + [clear] == [clear];
    RegisteredOneFresh(t1, add, "POST", OnAddClockEntry);
    var t2 := Table([clear, add], t1.entries[add := map["POST" := OnAddClockEntry]]);
    RegisteredOneFresh(t2, devices, "GET", OnGetDevices);
  }

  /** Lookups in three fixed entries extended by one value for many keys. */
  lemma ThreePlusMany<V>(a: Regex, b: Regex, c: Regex, x: V, y: V, z: V, keys: seq<Regex>, v: V)
    requires a != b && a != c && b != c && a !in keys && b !in keys && c !in keys
    ensures var m := map[a := x, b := y, c := z] + (map r | r in keys :: v);
      && m.Keys == {a, b, c} + (set r | r in keys)
      && m[a] == x && m[b] == y && m[c] == z
      && (forall r :: r in keys ==> m[r] == v)
  {
  }

  /** Which listener a request reaches, written from the decorators: a POST
      goes to `clearData` or else `addClockEntry`, a GET to `getDevices` or
      else the first ping regex that finds something, any other method to
      no one. */
  function RouteOf(clear: Regex, add: Regex, devices: Regex, pings: seq<Regex>, findall: FindAll, url: Url, verb: Verb): Dispatch<Callback>
  {
    if verb == "POST" then
      if |findall(clear, url)| > 0 then Matched(OnClearData, findall(clear, url))
      else if |findall(add, url)| > 0 then Matched(OnAddClockEntry, findall(add, url))
      else NotFound
    else if verb == "GET" then
      if |findall(devices, url)| > 0 then Matched(OnGetDevices, findall(devices, url))
      else FirstPingRoute(pings, findall, url)
    else NotFound
  }

  function Route(findall: FindAll, url: Url, verb: Verb): Dispatch<Callback>
  {
    RouteOf(CLEAR_DATA_ROUTE, ADD_ENTRY_ROUTE, DEVICES_ROUTE, PING_ROUTES, findall, url, verb)
  }

  /** The first of the ping regexes that finds something in the url. */
  function FirstPingRoute(pings: seq<Regex>, findall: FindAll, url: Url): (d: Dispatch<Callback>)
    ensures d.NotFound? <==> forall i :: 0 <= i < |pings| ==> |findall(pings[i], url)| == 0
    ensures d.Matched? ==> d.callback == OnGetClockEntry && exists i :: 0 <= i < |pings| && d.finds == findall(pings[i], url) && |d.finds| > 0
  {
    if pings == [] then NotFound
    else if |findall(pings[0], url)| > 0 then Matched(OnGetClockEntry, findall(pings[0], url))
    else
      var d := FirstPingRoute(pings[1..], findall, url);
      assert forall i :: 1 <= i < |pings| ==> pings[i] == pings[1..][i - 1];
      d
  }

  /** The ping regexes only have GET, so a scan over them finds the first
      that matches a GET and nothing for any other method. */
  lemma {:induction false} ScanPingRoutes(pings: seq<Regex>, entries: map<Regex, map<Verb, Callback>>, findall: FindAll, url: Url, verb: Verb)
    requires forall r :: r in pings ==> r in entries && entries[r] == map["GET" := OnGetClockEntry]
    ensures Scan(pings, entries, findall, url, verb) == if verb == "GET" then FirstPingRoute(pings, findall, url) else NotFound
  {
    if pings != [] {
      assert pings[0] in pings;
      ScanPingRoutes(pings[1..], entries, findall, url, verb);
    }
  }

  /** Scanning the table the four decorators build gives `RouteOf`. */
  lemma ScanRoutesOf(t: Table<Callback>, clear: Regex, add: Regex, devices: Regex, pings: seq<Regex>, findall: FindAll, url: Url, verb: Verb)
    requires t.order == [clear, add, devices] + pings
    requires clear in t.entries && t.entries[clear] == map["POST" := OnClearData]
    requires add in t.entries && t.entries[add] == map["POST" := OnAddClockEntry]
    requires devices in t.entries && t.entries[devices] == map["GET" := OnGetDevices]
    requires forall r :: r in pings ==> r in t.entries && t.entries[r] == map["GET" := OnGetClockEntry]
    ensures Scan(t.order, t.entries, findall, url, verb) == RouteOf(clear, add, devices, pings, findall, url, verb)
  {
    var o, e := t.order, t.entries;
    assert o[0] == clear && o[1..][0] == add && o[1..][1..][0] == devices && o[1..][1..][1..] == pings;
    assert Qualifies(e, findall, url, verb, clear) <==> verb == "POST" && |findall(clear, url)| > 0;
    assert Qualifies(e, findall, url, verb, add) <==> verb == "POST" && |findall(add, url)| > 0;
    assert Qualifies(e, findall, url, verb, devices) <==> verb == "GET" && |findall(devices, url)| > 0;
    var o1, o2 := o[1..], o[1..][1..];
    assert Scan(o, e, findall, url, verb)
        == if Qualifies(e, findall, url, verb, clear) then Matched(OnClearData, findall(clear, url)) else Scan(o1, e, findall, url, verb);
    assert Scan(o1, e, findall, url, verb)
        == if Qualifies(e, findall, url, verb, add) then Matched(OnAddClockEntry, findall(add, url)) else Scan(o2, e, findall, url, verb);
    assert Scan(o2, e, findall, url, verb)
        == if Qualifies(e, findall, url, verb, devices) then Matched(OnGetDevices, findall(devices, url)) else Scan(pings, e, findall, url, verb);
    ScanPingRoutes(pings, e, findall, url, verb);
    assert "GET" != "POST" by { assert |"GET"| != |"POST"|; }
  }

  /** `callEvent` over the registered listeners dispatches as `Route` says. */
  lemma RoutesDispatch(findall: FindAll, url: Url, verb: Verb)
    ensures Scan(Routes().order, Routes().entries, findall, url, verb) == Route(findall, url, verb)
  {
    RoutesTable();
    ScanRoutesOf(Routes(), CLEAR_DATA_ROUTE, ADD_ENTRY_ROUTE, DEVICES_ROUTE, PING_ROUTES, findall, url, verb);
  }

  /** A GET only ever reaches the two GET handlers, a POST only the two
      POST handlers, and any other method no handler at all. */
  lemma RouteRespectsMethods(findall: FindAll, url: Url, verb: Verb)
    ensures var d := Route(findall, url, verb);
      && (verb == "GET" && d.Matched? ==> d.callback == OnGetDevices || d.callback == OnGetClockEntry)
      && (verb == "POST" && d.Matched? ==> d.callback == OnClearData || d.callback == OnAddClockEntry)
      && (verb != "GET" && verb != "POST" ==> d == NotFound)
  {
  }

  /** A POST that "/clear_data" finds empties the store and answers ("", 200). */
  lemma ClearDataRequest(store: Store, findall: FindAll, url: Url)
    requires |findall(CLEAR_DATA_ROUTE, url)| > 0
    ensures Respond(store, Scan(Routes().order, Routes().entries, findall, url, "POST")) == (map[], OK)
  {
    RoutesDispatch(findall, url, "POST");
  }

  /** A request no listener takes leaves the store alone and gets ("[]", 404). */
  lemma UnroutedRequest(store: Store, findall: FindAll, url: Url, verb: Verb)
    requires verb != "GET" && verb != "POST"
    ensures Respond(store, Scan(Routes().order, Routes().entries, findall, url, verb)) == (store, Reply(Text("[]"), 404))
  {
    RoutesDispatch(findall, url, verb);
  }

  // ---------------------------------------------------------------------
  // Properties of the handlers

  /** Only `clearData` and `addClockEntry` change the store. */
  lemma ReadersKeepStore(callback: Callback, store: Store, regexData: Finds)
    requires callback == OnGetDevices || callback == OnGetClockEntry
    ensures Handle(callback, store, regexData).0 == store
  {
  }

  /** Clearing, then listing the devices, gives an empty object. */
  lemma ClearThenListDevices(store: Store, clearData: Finds, listData: Finds)
    ensures Handle(OnClearData, store, clearData) == (map[], OK)
    ensures Handle(OnGetDevices, map[], listData) == (map[], Reply(PingTable(map[]), 200))
  {
  }

  /** Recording T for a device and querying with from = to = T: the device's
      own query answers an empty list, the "all" query keeps T. */
  lemma RecordThenQueryBoundary(store: Store, device: DeviceId, t: int)
    requires device != ALL
    ensures Handle(OnAddClockEntry, store, [[device, ShowInt(t)]]).1 == OK
    ensures var s1 := Handle(OnAddClockEntry, store, [[device, ShowInt(t)]]).0;
      var single := Handle(OnGetClockEntry, s1, [[device, ShowInt(t), ShowInt(t)]]).1;
      single.Reply? && single.body.PingList? && single.body.times == []
    ensures var s1 := Handle(OnAddClockEntry, store, [[device, ShowInt(t)]]).0;
      var all := Handle(OnGetClockEntry, s1, [[ALL, ShowInt(t), ShowInt(t)]]).1;
      all.Reply? && all.body.PingTable? && device in all.body.table && t in all.body.table[device]
  {
    var s1 := AppendPing(store, device, t);
    assert Handle(OnAddClockEntry, store, [[device, ShowInt(t)]]).0 == s1;
    assert t in s1[device];
    BoundaryAsymmetry(s1, device, t);
  }

  /** With two groups `getClockEntry` queries up to one day after `from_`,
      as if that bound had been given as a third group. */
  lemma TwoGroupsQueryOneDay(store: Store, device: DeviceId, from_: string, lo: int)
    requires ParseTime(from_) == Some(lo)
    ensures Handle(OnGetClockEntry, store, [[device, from_]])
         == Handle(OnGetClockEntry, store, [[device, from_, ShowInt(lo + SECONDS_PER_DAY)]])
  {
    QueryDefaultUpperBound(store, device, from_, lo);
  }
}

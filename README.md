# Timeclock service model

A Dafny model of a small HTTP timeclock service.

- Devices record "pings": integer Unix timestamps.
- Clients clear the store, record a ping with `POST /{device}/{timestamp}`, list every device, and query one device, or `all` devices, over a time window.
- Requests reach their handlers through `RequestEventManager`. It is an insertion-ordered table from URL regex to HTTP method to callback.
  - The `addListener` decorator fills the table.
  - `callEvent` searches it. The first regex, in insertion order, that has the method and that `re.findall` finds something for wins.
  - If none wins, the answer is `("[]", 404)`.

Modules:

- `EventManager` (`eventmanager.dfy`) models the registry.
  - The class `RequestEventManager` has the two fields that make up the Python class-level dict: `order`, its keys in insertion order, and `listeners`, what each key maps to.
  - `AddListener` and `CallEvent` are loops proved against the specification functions `Registered` and `Scan`. The lemmas about those functions state what registration and dispatch promise.
- `TimeParsing` (`timeparsing.dfy`) models `parseTime`.
  - The text is first tried as `int()`. If that fails, it is tried as a `%Y-%m-%d` date, converted to the UTC midnight timestamp with the proleptic Gregorian ordinal arithmetic that `calendar.timegm` performs.
  - Integers and dates are printed back, so that round trips can be stated.
- `PingStore` (`pingstore.dfy`) covers the data and the query.
  - The data is a map from device to its list of pings.
  - `Query` is `getPings`. A single device gets a half-open window `[from, to)`. `all` gets a closed window `[from, to]` over every device.
  - `SelectWindow` is the inner filtering loop.
- `Server` (`server.dfy`) holds the rest.
  - The class `TimeclockEndpoint` holds the data and has one method per handler. Each method is proved against the pure handler function `Handle`.
  - `Routes` is the registration performed by the decorators, in their order. `RouteOf` is an independent statement of which handler a request should reach. `RoutesDispatch` proves that scanning the registered table gives exactly that.
  - `HandleRequest` is `callEvent` followed by the chosen callback.

Modelling choices:

- `re.findall` is a parameter `findall: (pattern, url) -> seq<seq<string>>`: each match gives one sequence of groups.
- Python exceptions are a `Crash(fault)` outcome. A crashing handler leaves the store as it was.
- File persistence (`save()`) is a ghost snapshot `saved`. It is set to `data` after every mutation.
- Callbacks are the four tags of `Callback`.
- `callEvent` is split in two steps. `CallEvent` returns which callback to call, with what, or `NotFound`. `HandleRequest` calls it, or answers `("[]", 404)`.

Points where the code's behaviour is easy to misread:

- The upper bound `to` falls back to `from + 86400` whenever it is falsy, so an empty string counts as absent as well as `None` (`server.py:168`).
- A single-device query keeps the pings with `from <= t < to`, so recording t1..tn and querying `[t1, hi)` gives back exactly t1..tn only when every ti lies in that window (`PingStore.QueryAfterAppends`).
- Single-device queries exclude the upper bound and `all` queries include it (`server.py:186` against `server.py:176`). `PingStore.BoundaryAsymmetry` proves both sides: with from = to = T the device's answer is empty, and the `all` answer keeps a ping at T.

## Model

| member | source | states |
|---|---|---|
| EventManager.RequestEventManager.constructor | event/eventmanager.py:39 | the registry starts with no regexes |
| EventManager.RequestEventManager.AddListener | event/eventmanager.py:41-65 | registering one regex or a list keeps the table well formed (keys listed once, exactly the listed keys have method tables); the new table is `Registered` of the old one over the normalised list |
| EventManager.RequestEventManager.CallEvent | event/eventmanager.py:67-86 | the loop (skip a regex lacking the method, stop at the first non-empty findall) returns exactly `Scan` of the table |
| EventManager.RegisteredSnoc | event/eventmanager.py:59-64 | unfolding step used by the other proofs: one more regex in the list is one more step of the loop in `inner` |
| EventManager.RegisteredAllFresh | event/eventmanager.py:56-64 | registering distinct, absent regexes appends them in list order, each with a method table holding only the given method |
| EventManager.RegisteredOneFresh | event/eventmanager.py:61-64 | registering one absent regex appends it with the one method |
| EventManager.RegisteredValid | event/eventmanager.py:59-64 | registration preserves the well-formedness of the table |
| EventManager.RegisteredEntry | event/eventmanager.py:61-64 | for any one regex: it has a table afterwards iff it had one or was listed; a listed regex gets the method mapped to the callback on top of its old methods (or on an empty table); an unlisted regex keeps its table |
| EventManager.RegisteredMapsVerb | event/eventmanager.py:59-64 | the keys afterwards are the old keys plus the listed regexes, and every listed regex maps the method to the callback |
| EventManager.RegisteredEntries | event/eventmanager.py:61-64 | other methods of an existing regex survive; a new regex gets only this method; unlisted regexes are untouched |
| EventManager.RegisteredOrder | event/eventmanager.py:61-62 | no regex moves: the old order is a prefix of the new, followed by exactly the listed regexes that were absent |
| EventManager.SingleIsOneElementList | event/eventmanager.py:56 | a single regex registers exactly as the one-element list holding it (an unfolding of the normalisation), and afterwards it maps the method to the callback |
| EventManager.LastWriteWins | event/eventmanager.py:64 | registering the same regex and method twice leaves the later callback |
| EventManager.ScanFirstMatch | event/eventmanager.py:76-84 | if regex i qualifies and none before it does, dispatch calls regex i's callback with regex i's findall result |
| EventManager.ScanNotFound | event/eventmanager.py:76-86 | the answer is not-found iff no regex has the method and a non-empty findall |
| EventManager.ScanMatchedSource | event/eventmanager.py:82-84 | every match comes from a first qualifying regex, with its callback and its findall result |
| EventManager.ScanSkipsMissingVerb | event/eventmanager.py:78-79 | a regex without the method never affects dispatch, whatever it would match |
| TimeParsing.ShowInt | server.py:161 | the decimal text of any integer is read back by `int()` as that integer |
| TimeParsing.ShowNat | server.py:161 | the digits of a natural number have that value |
| TimeParsing.ParseTimeOfInteger | server.py:160-161 | an integer's text is taken by the `int()` branch of `parseTime` |
| TimeParsing.ParseFormatDate | server.py:163 | `%Y-%m-%d` parsing of any valid date's text gives back that date |
| TimeParsing.ParseTimeOfDate | server.py:160-163 | a date's text falls through `int()` and gives the timestamp of its UTC midnight |
| TimeParsing.ParseTimeExample | server.py:163 | "2021-06-01" parses to 1622505600 |
| TimeParsing.EpochIsZero | server.py:163 | 1970-01-01 is timestamp 0 |
| TimeParsing.NextDayIsOneDayLater | server.py:163 | consecutive calendar days are 86400 seconds apart, across month and year ends and leap days |
| TimeParsing.DaysBeforeNextYear | server.py:163 | a year has 366 days when leap and 365 otherwise |
| PingStore.SelectWindow | server.py:184-187 | the filtering loop returns `Within` of the pings |
| PingStore.WithinConcat | server.py:184-187 | filtering distributes over concatenation, so order is preserved |
| PingStore.WithinCounts | server.py:184-187 | every timestamp inside the window is kept as often as it occurs, and every other one is dropped |
| PingStore.WithinKeepsAll | server.py:184-187 | a list wholly inside the window is returned unchanged |
| PingStore.WithinKeepsNone | server.py:184-187 | a list wholly outside the window gives the empty list |
| PingStore.AppendPingsEffect | server.py:99-104 | recording pings one by one appends them, in order, to that device only; the other devices keep their pings |
| PingStore.QueryKnownDevice | server.py:183-188 | a known device gets, in order, exactly its pings with `from <= t < to` |
| PingStore.QueryAllDevices | server.py:171-178 | `all` gets every device, those without qualifying pings included, each with exactly its pings with `from <= t <= to` |
| PingStore.QueryUnknownDevice | server.py:180-181 | an unknown device gets an empty list, not an error |
| PingStore.QueryDefaultUpperBound | server.py:168 | an absent `to` means `from + 86400` |
| PingStore.QueryRejectsBadTimes | server.py:160-168 | an unparseable `from` or non-empty `to` is an error, and `from` is checked first |
| PingStore.BoundaryAsymmetry | server.py:171-188 | with from = to = T, the device's own query answers an empty list, while the `all` query keeps a ping at T that the device has |
| PingStore.QueryAfterAppends | server.py:145-188 | pings t1..tn recorded for a new device, all in `[t1, hi)`, come back exactly and in order from the query `[t1, hi)` |
| Server.TimeclockEndpoint.constructor | server.py:79 | the endpoint starts from the loaded data |
| Server.TimeclockEndpoint.ClearData | server.py:81-90 | the data becomes empty and is saved; the reply is ("", 200) |
| Server.TimeclockEndpoint.AddClockEntry | server.py:92-108 | a non-integer time or a malformed match raises and changes nothing; otherwise the time is appended to the device's pings (a new device gets a list holding just it), the other devices are unchanged, the data is saved and the reply is ("", 200) |
| Server.TimeclockEndpoint.GetDevices | server.py:110-118 | the whole data is returned with 200 and nothing changes |
| Server.TimeclockEndpoint.GetPings | server.py:145-188 | the loops over devices and pings compute exactly `Query` of the data |
| Server.TimeclockEndpoint.GetClockEntry | server.py:121-142 | two groups query up to one day after `from`, three groups up to `to`, any other count raises; the data is unchanged |
| Server.TimeclockEndpoint.Invoke | event/eventmanager.py:84 | calling a callback has its handler's effect; the data is saved after `clearData` and after a successful `addClockEntry`, and in no other case |
| Server.RegisterRoutes | server.py:81-124 | the four decorators build exactly the table `Routes` |
| Server.HandleRequest | event/eventmanager.py:76-86 | a request gets the reply and new data of the callback dispatch picks, or ("[]", 404) with nothing changed; the data is saved after a clear and after a successful record, and never after a read, a crash or a miss |
| Server.RoutesTable | server.py:81-124 | the registered table lists seven regexes in decorator order, each with only the method and callback registered for it |
| Server.RoutesOfTable | server.py:81-124 | over any distinct regexes, the four registrations give that closed-form table |
| Server.FirstPingRoute | server.py:121-124 | the ping routes find nothing iff no ping regex matches; a match is `getClockEntry` with the findall result of some matching ping regex |
| Server.ScanPingRoutes | server.py:121-124 | the ping regexes answer only GET, with the first that matches |
| Server.ScanRoutesOf | server.py:81-124 | scanning the decorators' table dispatches as `RouteOf` says, for any regexes |
| Server.RoutesDispatch | server.py:81-124 | `callEvent` over the registered table dispatches exactly as `Route`: a POST goes to `clearData`, else to `addClockEntry`; a GET goes to `getDevices`, else to the first matching ping regex; any other method goes nowhere |
| Server.RouteRespectsMethods | server.py:81-124 | a GET reaches only GET handlers, a POST only POST handlers, and other methods reach none |
| Server.ClearDataRequest | server.py:81-90 | a POST whose url "/clear_data" finds something in empties the data and answers ("", 200); it wins over "^/(.*?)/(.*?)$" on urls both match, such as "/x/clear_data" |
| Server.UnroutedRequest | event/eventmanager.py:86 | a method other than GET and POST is answered ("[]", 404) and the data is kept |
| Server.ReadersKeepStore | server.py:110-142 | listing devices and querying pings never change the data |
| Server.ClearThenListDevices | server.py:81-118 | clearing, then listing the devices, gives an empty mapping |
| Server.RecordThenQueryBoundary | server.py:92-188 | recording T, then querying from = to = T, gives an empty list for the device's own query and keeps T in the `all` answer |
| Server.TwoGroupsQueryOneDay | server.py:131-138 | a two-group ping request answers as the three-group request whose `to` is one day after `from` |

## Left out

- The HTTP transport is not modelled: `TandaHTTPRequestHandler`, `do_GET`, `do_POST` and the `__main__` server loop (`server.py:31-61`, `server.py:190-194`). `HandleRequest` takes the url and the method directly.
- File I/O in `storage/filehandler.py` (loading with `eval`, writing `str(self)`) is not modelled. The loaded data is a constructor argument and `save()` is the ghost snapshot `saved`.
- The regex engine is not modelled. `findall` is a parameter, so nothing is proved about which urls a pattern actually matches, such as "/devices" matching unanchored inside a longer url.
- For a pattern without groups, Python's `re.findall` returns plain strings rather than tuples. The model gives every match a sequence of groups. The only handlers that receive such matches (`clearData`, `getDevices`) ignore them.
- Server.TimeclockEndpoint.GetDevices: the JSON text of `json.dumps` is not modelled; the body holds the mapping itself (and `GetClockEntry` the list or mapping of pings).
- TimeParsing.ParseInteger: it accepts only an optional sign followed by ASCII digits. Python's `int()` also accepts surrounding whitespace, underscores between digits and non-ASCII digits. Texts using those are modelled as not integers.
- TimeParsing.ParseDate: it accepts exactly four, two and two digits. `strptime` also accepts one-digit months and days and some other spacing. Such texts are modelled as not dates.
- Python integers and the C integers used by `timegm` are unbounded in the model. Years are limited to 1..9999, as `datetime` limits them.
- The class-level dict `RequestEventManager.listeners` is global state in Python. The model passes it around as one object and does not model sharing or concurrency.
- Callbacks are tags, not functions. Dispatch returns the tag and `Invoke` runs the handler it names.

# FishingTracker core in Dafny

A verified model of the two pieces of logic in the FishingTracker app that are
more than GUI glue:

- **The GPS tracker** (`core/gps_utils.py`, module `GpsUtils` in
  `gps_utils.dfy`). `GPSTracker` is a class whose fields are the last fix
  (`lat`, `lon`, `speedMps`), the `enabled` lifecycle flag, the ordered
  `subscribers` list and `desktopTimers`, the number of desktop `Clock`
  intervals scheduled for the stub. `start`/`stop` are guarded transitions;
  `subscribe` appends; `_on_location` and the desktop stub overwrite the fix
  and then notify every subscriber in registration order. Callbacks are opaque
  ids, and every call made to one is recorded in the ghost `trace`, so
  "each subscriber exactly once, in order, with `(lat, lon, speed_kph)`" is a
  statement about `trace`. The class attribute `_instance` is the
  `TrackerRegistry` class, and `last_fix` is a method over it.
- **The weather cache** (`core/waves.py`, module `Waves` in `waves.dfy`). The
  table of eight parameter ids, the newest-sample selection of `_latest`, the
  `Weather` class (`data`, `timeUtc`, and `shadow`, the instance attributes
  that `__init__` binds under parameter names), its attribute lookup, the
  all-or-nothing `refresh`, and `deg_to_compass8` with Python's
  round-half-to-even and floor modulo.

`wrappers.dfy` holds `Option` (Python's `None`-or-value) and `Result` (a
value, or the exception raised).

The loop of `refresh` is specified by `Gather`, the fold of its body over the
first `n` rows of the table; the lemmas about `Gather` give the key set, the
per-parameter values, the maximum timestamp and the first-failure rule, and
`Refresh` is proved to install exactly `Gather`'s result or to leave the cache
untouched. The notification loop is specified by `Broadcast`.

Two quirks of the code are modelled as written and proved:

- `last_fix` uses an all-zero sentinel: a real fix at (0, 0) with speed 0, or
  a location callback that carries none of the keys, reads as "no fix yet"
  (`ZeroFixIsNoFix`, `ZeroFixAfterUpdate`). `stop` never cancels the desktop
  interval, and the stub's tick does not look at `enabled`, so the fix keeps
  moving after `stop` and each restart adds an interval
  (`DesktopStubOutlivesStop`).
- `Weather.__init__` reads `wind_direction_deg` and
  `dominant_wave_direction_deg` while the cache is empty, gets `None` from
  `__getattr__`, and binds `deg_to_compass8(None)`, that is `None`, as
  instance attributes. These hide `__getattr__` for good, so both directions
  read `None` even after a successful refresh (`DirectionsStayNone`,
  `ReadAfterRefresh`).

The model follows the code as written: `refresh` takes no `force` flag and
has no cache window; one failing parameter makes the whole refresh raise, so
no partial snapshot is ever installed; nothing is called after a refresh;
`subscribe` returns nothing and the tracker has no `unsubscribe`; `last_fix`
keeps no separate "fix received" flag; and `deg_to_compass8(360)` is "N"
because 360 is truthy.

## Model

| member | source | states |
|---|---|---|
| `GpsUtils.GPSTracker.constructor` | core/gps_utils.py:48-53 | a new tracker has lat = lon = speed = 0, is disabled, has no subscribers, no scheduled interval and no calls made |
| `GpsUtils.TrackerRegistry.GetInstance` | core/gps_utils.py:58-62 | creates a fresh initial tracker only when none exists; otherwise returns the existing one; the registry then holds the returned tracker |
| `GpsUtils.SingleInstance` | core/gps_utils.py:58-62 | two calls of `get_instance` return the same object |
| `GpsUtils.GPSTracker.SpeedKph` | core/gps_utils.py:65-67 | km/h is the stored m/s times 3.6; a function of the state, so reading it changes nothing |
| `GpsUtils.GPSTracker.SpeedKnots` | core/gps_utils.py:69-71 | knots is the stored m/s times 1.94384; reading it changes nothing |
| `GpsUtils.GPSTracker.LatLon` | core/gps_utils.py:73-75 | the pair is the stored latitude and longitude |
| `GpsUtils.GPSTracker.Start` | core/gps_utils.py:78-97 | already enabled: nothing changes; desktop: enabled and one more interval scheduled; Plyer: enabled iff configure/start succeed, disabled on `NotImplementedError`; fix, subscribers and trace untouched |
| `GpsUtils.GPSTracker.Stop` | core/gps_utils.py:99-104 | afterwards disabled; only `enabled` may change, so fix, subscribers and scheduled intervals are kept; disabled stays a no-op |
| `GpsUtils.GPSTracker.Subscribe` | core/gps_utils.py:107-109 | the callback is appended at the end; earlier entries and every other field unchanged |
| `GpsUtils.GPSTracker.Notify` | core/gps_utils.py:116-117 | the trace grows by exactly one round of calls over the current subscribers with the stored fix in km/h; nothing else changes |
| `GpsUtils.GPSTracker.OnLocation` | core/gps_utils.py:112-117 | lat, lon and speed are the keyword values, 0.0 when missing; then one call per subscriber in order with `(lat, lon, speed * 3.6)`; lifecycle and subscribers unchanged |
| `GpsUtils.GPSTracker.OnStatus` | core/gps_utils.py:119-123 | logs exactly for `provider-enabled`/`provider-disabled`; modifies nothing |
| `GpsUtils.GPSTracker.FakeDesktopTick` | core/gps_utils.py:126-137 | stores the spiral position and 1.5 m/s regardless of `enabled`, then notifies every subscriber in order with 1.5 * 3.6 km/h |
| `GpsUtils.Broadcast` | core/gps_utils.py:116-117 | a notification round makes one call per subscriber |
| `GpsUtils.BroadcastAt` | core/gps_utils.py:116-117 | the k-th call of a round goes to the k-th subscriber with the round's lat, lon and km/h |
| `GpsUtils.BroadcastCount` | core/gps_utils.py:116-117 | a callback is called as many times per round as it appears in the list |
| `GpsUtils.FixReading` | core/gps_utils.py:148-150 | `None` iff lat, lon and m/s are all zero; otherwise the stored lat and lon with speed in km/h |
| `GpsUtils.LastFix` | core/gps_utils.py:142-150 | reads the shared tracker (creating it if absent) through `FixReading`; with no prior instance the answer is `None` |
| `GpsUtils.ZeroFixIsNoFix` | core/gps_utils.py:113-115 | a location update whose keywords are zero or missing yields a state that `last_fix` reports as no fix |
| `GpsUtils.ZeroFixAfterUpdate` | core/gps_utils.py:142-149 | after the one subscriber received exactly the call `(0, 0, 0)` for a fix at (0, 0) with speed 0, `last_fix` still returns `None` |
| `GpsUtils.DesktopStubOutlivesStop` | core/gps_utils.py:93-104 | on the desktop, start/stop twice leaves two intervals scheduled and a later tick still sets 1.5 m/s while disabled |
| `Waves.ParamNamesAreTheTable` | core/waves.py:10-19 | the names of the table's rows, taken by index, are exactly `PARAM_IDS.values()` |
| `Waves.ParamNamesDistinct` | core/waves.py:10-19 | no two rows share a name |
| `Waves.Latest` | core/waves.py:28-31 | transport failure raises an HTTP error; a truthy `error` raises it; an empty `data` raises; otherwise the result is the last sample |
| `Waves.LatestIsNewest` | core/waves.py:31 | on a time-ordered `data` array the returned sample is the newest |
| `Waves.GatherErrSticks` | core/waves.py:58-59 | once a fetch raises, the remaining rows do not change the outcome |
| `Waves.GatherOkIff` | core/waves.py:58-59 | the loop over the first n rows completes iff every one of their fetches succeeds |
| `Waves.GatherFirstFailure` | core/waves.py:58-59 | a failed loop raises the error of the first failing row in table order |
| `Waves.GatherValues` | core/waves.py:56-60 | a completed loop holds exactly the names of the rows visited, each with the value fetched for its own id |
| `Waves.GatherTime` | core/waves.py:55-62 | a completed loop's time is one of the fetched timestamps and no smaller than any; `None` only before the first row |
| `Waves.RefreshedSnapshot` | core/waves.py:53-65 | a successful refresh installs keys equal to the eight names, each with its fetched value, and time equal to the maximum of the eight timestamps |
| `Waves.RefreshedFails` | core/waves.py:58-65 | refresh succeeds iff all eight fetches succeed; otherwise it raises the first failure in table order |
| `Waves.Weather.Refresh` | core/waves.py:53-65 | on success `data` and `time_utc` are replaced wholesale by the refreshed snapshot; on failure the error propagates and both keep their old values; the instance attributes never change |
| `Waves.Weather.constructor` | core/waves.py:38-44 | empty cache, no time, and both direction names bound on the instance to `None` |
| `Waves.GetAttr` | core/waves.py:47-50 | a parameter name reads `data.get(name)`; any other name raises `AttributeError` |
| `Waves.Attribute` | core/waves.py:43-50 | an instance attribute bound under the name wins; otherwise the lookup is `__getattr__` |
| `Waves.Weather.Lookup` | core/waves.py:43-50 | on a constructed cache the two direction names read `None`; any other name succeeds iff it is a parameter name |
| `Waves.DirectionsStayNone` | core/waves.py:43-44 | whatever the cache holds, both direction attributes read `None`, though `__getattr__` would return the cached bearing |
| `Waves.ReadAfterRefresh` | core/waves.py:43-65 | after construction and a successful refresh, the wind direction still reads `None` while wind speed reads its fetched value |
| `Waves.RoundHalfEven` | core/waves.py:72 | the result is within one half of the argument, and an exact half goes to the even neighbour |
| `Waves.RoundingIsUnique` | core/waves.py:72 | at most one integer meets that description |
| `Waves.RoundShiftsByEight` | core/waves.py:72 | rounding commutes with adding 8 |
| `Waves.DegToCompass8` | core/waves.py:67-74 | `None` iff the bearing is absent or zero; otherwise one of the eight labels |
| `Waves.CompassSector` | core/waves.py:69-73 | a non-zero bearing within 22.5 degrees of 45k (exclusive) gets the k-th label |
| `Waves.CompassPeriodic` | core/waves.py:72 | adding 360 to a bearing leaves its label unchanged when neither it nor the sum is zero |
| `Waves.CompassBoundaries` | core/waves.py:69-74 | 22.5 gives N and 67.5 gives E (half to even), 45 gives NE, 360 gives N, -90 gives W, 0 and `None` give nothing |

## Left out

- Floating point: coordinates, speeds, bearings and readings are exact reals, so the rounding of `* 3.6`, `* 1.94384`, `deg / 45` and `float(...)` conversions, NaN and infinities are not modelled.
- The desktop spiral geometry (`time.time()`, `cos`, `sin`) and `_t0`: `FakeDesktopTick` takes the computed position as parameters.
- Plyer and Kivy plumbing: `gps.configure`/`gps.start` are one outcome parameter of `Start` (exceptions other than `NotImplementedError` are not modelled); the effect of `gps.stop()` on the platform is not modelled; the `Clock` interval is a counter, and firing it is a call of `FakeDesktopTick`.
- GpsUtils.GPSTracker.Notify: assumes no callback raises. In the source an exception from a callback ends the loop, so later subscribers are not called and the exception propagates.
- GpsUtils.GPSTracker.OnLocation: assumes no callback raises. In the source a raising callback (for example one that writes to the database) leaves the fix already overwritten, skips the remaining subscribers and propagates out of `_on_location`.
- GpsUtils.GPSTracker.FakeDesktopTick: assumes no callback raises; a raising callback cuts the round short after the fix was stored, as in `OnLocation`.
- Callbacks are opaque ids assumed not to re-enter the tracker; a callback that subscribes during a notification round (which Python's list iteration would then also call) is not modelled.
- `print` output of `start` and `_on_status`; `OnStatus` returns whether it would log instead.
- The HTTP request, `raise_for_status`, JSON decoding and the ms-to-`datetime` conversion in `_latest`: the endpoint is a function from (project id, parameter id) to a transport failure or a decoded body; timestamps stay integer milliseconds. A body whose `data` field is missing or not an array of pairs is not modelled.
- Waves.Weather.Lookup: covers only names the object does not define itself (`project_id`, `data`, `time_utc`, the methods, Python's dunder names), which Python resolves without `__getattr__`.
- Concurrency between platform location callbacks and readers: the code has none.
- `core/db.py` (ORM persistence and haversine distance), `core/mapline.py`, `main.py` and the `ui/` screens are not part of this model.

/**
  The buoy weather cache of core/waves.py: the fixed table of parameter ids,
  the selection of the newest sample of one response, the `Weather` object
  with its attribute lookup and its all-or-nothing `refresh`, and the
  conversion of a bearing to one of eight compass points.

  Timestamps are integer milliseconds (the order of the `datetime` values the
  source builds from them is the order of the integers); readings are reals.
*/
module Waves {
  import opened Wrappers

  /** One row of the parameter table: the endpoint's id and the attribute name it feeds. */
  datatype Param = Param(id: int, name: string)

  const DefaultProjectId: int := 55

  const WindDirection: string := "wind_direction_deg"
  const WaveDirection: string := "dominant_wave_direction_deg"

  /** The eight parameters, in the dictionary's insertion order (which is the fetch order). */
  const ParamTable: seq<Param> := [
    Param(56985, "wind_speed_mph"),
    Param(56986, "max_wind_speed_mph"),
    Param(56987, WindDirection),
    Param(56998, "air_temp_f"),
    Param(57009, "sig_wave_ft"),
    Param(57010, "dominant_wave_period_s"),
    Param(57011, WaveDirection),
    Param(57013, "max_wave_ft")
  ]

  /** The names of the first `n` parameters of the table. */
  function NamesUpTo(n: nat): set<string>
    requires n <= |ParamTable|
  {
    set i | 0 <= i < n :: ParamTable[i].name
  }

  /** `PARAM_IDS.values()`. */
  const ParamNames: set<string> := set p | p in ParamTable :: p.name

  /** The names of all rows, counted by index, are the parameter names. */
  lemma ParamNamesAreTheTable()
    ensures NamesUpTo(|ParamTable|) == ParamNames
  {
    forall x | x in ParamNames ensures x in NamesUpTo(|ParamTable|) {
      var p :| p in ParamTable && p.name == x;
      var i :| 0 <= i < |ParamTable| && ParamTable[i] == p;
    }
  }

  /** No two rows of the table share a name, so no fetched value overwrites another. */
  lemma ParamNamesDistinct(i: nat, j: nat)
    requires i < j < |ParamTable|
    ensures ParamTable[i].name != ParamTable[j].name
  {
  }

  // ---------------------------------------------------------------- _latest

  /** One sample of the endpoint's `data` array: `[timestamp_ms, value]`. */
  datatype Sample = Sample(tsMs: int, value: real)

  /**
    What one request yields: either the transport failed (connection error,
    timeout, an HTTP error status, a body that is not JSON), or a decoded body
    with its `error` field (`None` when absent or null) and its `data` array.
  */
  datatype Fetched = TransportFailure | Decoded(error: Option<string>, data: seq<Sample>)

  /** What `_latest` raises. */
  datatype FetchError =
    | HttpError                      // requests' exception or raise_for_status
    | ApiError(message: string)      // RuntimeError(js["error"])
    | NoSamples                      // IndexError from js["data"][-1]

  /** Python truthiness of the `error` field: a non-empty string. */
  predicate Truthy(error: Option<string>)
  {
    error.Some? && error.value != ""
  }

  /** `_latest` after the HTTP round trip: reject an API error, else take the last sample. */
  function Latest(f: Fetched): (r: Result<Sample, FetchError>)
    ensures r.Ok? <==> f.Decoded? && !Truthy(f.error) && |f.data| > 0
    ensures r.Ok? ==> r.value in f.data && r.value == f.data[|f.data| - 1]
    ensures f.TransportFailure? ==> r == Err(HttpError)
    ensures f.Decoded? && Truthy(f.error) ==> r == Err(ApiError(f.error.value))
    ensures f.Decoded? && !Truthy(f.error) && f.data == [] ==> r == Err(NoSamples)
  {
    match f
    case TransportFailure => Err(HttpError)
    case Decoded(error, data) =>
      if Truthy(error) then Err(ApiError(error.value))
      else if |data| == 0 then Err(NoSamples)
      else Ok(data[|data| - 1])
  }

  /** The samples are in non-decreasing time order, as the endpoint returns them. */
  predicate TimeOrdered(data: seq<Sample>)
  {
    forall i :: 0 < i < |data| ==> data[i - 1].tsMs <= data[i].tsMs
  }

  /** On a time-ordered array, the sample `_latest` returns is the newest one. */
  lemma {:induction false} LatestIsNewest(f: Fetched)
    requires Latest(f).Ok? && TimeOrdered(f.data)
    ensures forall s :: s in f.data ==> s.tsMs <= Latest(f).value.tsMs
  {
    var data := f.data;
    var n := |data|;
    // by descending induction on the index: each sample is no newer than the last
    forall k | 0 <= k < n ensures data[k].tsMs <= data[n - 1].tsMs {
      var j := n - 1;
      while j > k
        invariant k <= j <= n - 1
        invariant data[j].tsMs <= data[n - 1].tsMs
      {
        j := j - 1;
      }
    }
  }

  // ------------------------------------------------------------- refresh

  /** What `refresh` accumulates: the `buf` dictionary and `latest_time`. */
  datatype Snapshot = Snapshot(values: map<string, real>, timeUtc: Option<int>)

  /** The endpoint as seen by the model: `(project id, parameter id)` to what the request yields. */
  type Endpoint = (int, int) -> Fetched

  /** `_latest(project_id, pid)` for the `i`-th row of the table. */
  function LatestOf(projectId: int, fetch: Endpoint, i: nat): Result<Sample, FetchError>
    requires i < |ParamTable|
  {
    Latest(fetch(projectId, ParamTable[i].id))
  }

  /** One iteration of the loop body: store the value and keep the larger timestamp. */
  function Accumulate(acc: Snapshot, name: string, s: Sample): Snapshot
  {
    Snapshot(acc.values[name := s.value],
             if acc.timeUtc.None? || s.tsMs > acc.timeUtc.value then Some(s.tsMs) else acc.timeUtc)
  }

  /**
    The loop of `refresh` over the first `n` rows of the table: the first
    failing fetch aborts with its error, otherwise the accumulated snapshot.
  */
  function Gather(projectId: int, fetch: Endpoint, n: nat): Result<Snapshot, FetchError>
    requires n <= |ParamTable|
  {
    if n == 0 then Ok(Snapshot(map[], None))
    else
      match Gather(projectId, fetch, n - 1)
      case Err(e) => Err(e)
      case Ok(acc) =>
        match LatestOf(projectId, fetch, n - 1)
        case Err(e) => Err(e)
        case Ok(s) => Ok(Accumulate(acc, ParamTable[n - 1].name, s))
  }

  /** Once a fetch has failed, later rows do not change the outcome. */
  lemma {:induction false} GatherErrSticks(projectId: int, fetch: Endpoint, m: nat, n: nat)
    requires m <= n <= |ParamTable|
    requires Gather(projectId, fetch, m).Err?
    ensures Gather(projectId, fetch, n) == Gather(projectId, fetch, m)
  {
    if m < n {
      GatherErrSticks(projectId, fetch, m, n - 1);
    }
  }

  /** The loop completes exactly when every fetch of the first `n` rows succeeds. */
  lemma {:induction false} GatherOkIff(projectId: int, fetch: Endpoint, n: nat)
    requires n <= |ParamTable|
    ensures Gather(projectId, fetch, n).Ok? <==>
            forall i :: 0 <= i < n ==> LatestOf(projectId, fetch, i).Ok?
  {
    if n > 0 {
      GatherOkIff(projectId, fetch, n - 1);
    }
  }

  /** A failed loop reports the error of the first failing fetch, in table order. */
  lemma {:induction false} GatherFirstFailure(projectId: int, fetch: Endpoint, n: nat)
    requires n <= |ParamTable|
    requires Gather(projectId, fetch, n).Err?
    ensures exists k :: 0 <= k < n &&
              (forall i :: 0 <= i < k ==> LatestOf(projectId, fetch, i).Ok?) &&
              LatestOf(projectId, fetch, k) == Err(Gather(projectId, fetch, n).error)
  {
    var k := n - 1;
    if Gather(projectId, fetch, k).Err? {
      GatherFirstFailure(projectId, fetch, k);
    } else {
      GatherOkIff(projectId, fetch, k);
      assert (forall i :: 0 <= i < k ==> LatestOf(projectId, fetch, i).Ok?) &&
             LatestOf(projectId, fetch, k) == Err(Gather(projectId, fetch, n).error);
    }
  }

  /**
    A completed loop over the first `n` rows holds exactly their names, each
    mapped to the value fetched for its own id.
  */
  lemma {:induction false} GatherValues(projectId: int, fetch: Endpoint, n: nat)
    requires n <= |ParamTable|
    requires Gather(projectId, fetch, n).Ok?
    ensures Gather(projectId, fetch, n).value.values.Keys == NamesUpTo(n)
    ensures forall i :: 0 <= i < n ==>
              LatestOf(projectId, fetch, i).Ok? &&
              Gather(projectId, fetch, n).value.values[ParamTable[i].name] == LatestOf(projectId, fetch, i).value.value
  {
    if n > 0 {
      GatherValues(projectId, fetch, n - 1);
      var acc := Gather(projectId, fetch, n - 1).value;
      var s := LatestOf(projectId, fetch, n - 1).value;
      var name := ParamTable[n - 1].name;
      var m := Gather(projectId, fetch, n).value.values;
      assert m == acc.values[name := s.value];
      NamesUpToStep(n);
      forall i | 0 <= i < n
        ensures LatestOf(projectId, fetch, i).Ok? && m[ParamTable[i].name] == LatestOf(projectId, fetch, i).value.value
      {
        if i < n - 1 {
          ParamNamesDistinct(i, n - 1);
        }
      }
    }
  }

  /** Visiting one more row adds exactly its name. */
  lemma NamesUpToStep(n: nat)
    requires 0 < n <= |ParamTable|
    ensures NamesUpTo(n) == NamesUpTo(n - 1) + {ParamTable[n - 1].name}
  {
  }

  /**
    A completed loop over a non-empty prefix keeps as its time the maximum of
    the fetched timestamps: one of them, and no smaller than any.
  */
  lemma {:induction false} GatherTime(projectId: int, fetch: Endpoint, n: nat)
    requires n <= |ParamTable|
    requires Gather(projectId, fetch, n).Ok?
    ensures n == 0 <==> Gather(projectId, fetch, n).value.timeUtc.None?
    ensures n > 0 ==>
              var t := Gather(projectId, fetch, n).value.timeUtc.value;
              (exists i :: 0 <= i < n && LatestOf(projectId, fetch, i).Ok? && LatestOf(projectId, fetch, i).value.tsMs == t) &&
              (forall i :: 0 <= i < n ==> LatestOf(projectId, fetch, i).Ok? && LatestOf(projectId, fetch, i).value.tsMs <= t)
  {
    if n > 0 {
      GatherTime(projectId, fetch, n - 1);
      var acc := Gather(projectId, fetch, n - 1).value;
      var s := LatestOf(projectId, fetch, n - 1).value;
      var t := Gather(projectId, fetch, n).value.timeUtc.value;
      if acc.timeUtc.None? || s.tsMs > acc.timeUtc.value {
        assert LatestOf(projectId, fetch, n - 1).value.tsMs == t;
      } else {
        var i :| 0 <= i < n - 1 && LatestOf(projectId, fetch, i).Ok? && LatestOf(projectId, fetch, i).value.tsMs == t;
      }
    }
  }

  /** The snapshot a successful `refresh` installs, or the error it raises. */
  function Refreshed(projectId: int, fetch: Endpoint): Result<Snapshot, FetchError>
  {
    Gather(projectId, fetch, |ParamTable|)
  }

  /**
    What a successful `refresh` installs: the eight parameter names, each with
    the value fetched for its id, stamped with the newest of the eight times.
  */
  lemma RefreshedSnapshot(projectId: int, fetch: Endpoint)
    requires Refreshed(projectId, fetch).Ok?
    ensures Refreshed(projectId, fetch).value.values.Keys == ParamNames
    ensures forall i :: 0 <= i < |ParamTable| ==>
              LatestOf(projectId, fetch, i).Ok? &&
              Refreshed(projectId, fetch).value.values[ParamTable[i].name] == LatestOf(projectId, fetch, i).value.value
    ensures Refreshed(projectId, fetch).value.timeUtc.Some?
    ensures forall i :: 0 <= i < |ParamTable| ==>
              LatestOf(projectId, fetch, i).value.tsMs <= Refreshed(projectId, fetch).value.timeUtc.value
    ensures exists i :: 0 <= i < |ParamTable| &&
              LatestOf(projectId, fetch, i).value.tsMs == Refreshed(projectId, fetch).value.timeUtc.value
  {
    GatherValues(projectId, fetch, |ParamTable|);
    GatherTime(projectId, fetch, |ParamTable|);
    ParamNamesAreTheTable();
  }

  /** `refresh` succeeds exactly when all eight fetches succeed; otherwise it raises the first failure. */
  lemma RefreshedFails(projectId: int, fetch: Endpoint)
    ensures Refreshed(projectId, fetch).Ok? <==>
            forall i :: 0 <= i < |ParamTable| ==> LatestOf(projectId, fetch, i).Ok?
    ensures Refreshed(projectId, fetch).Err? ==>
            exists k :: 0 <= k < |ParamTable| &&
              (forall i :: 0 <= i < k ==> LatestOf(projectId, fetch, i).Ok?) &&
              LatestOf(projectId, fetch, k) == Err(Refreshed(projectId, fetch).error)
  {
    GatherOkIff(projectId, fetch, |ParamTable|);
    if Refreshed(projectId, fetch).Err? {
      GatherFirstFailure(projectId, fetch, |ParamTable|);
    }
  }

  // ------------------------------------------------------ deg_to_compass8

  const Directions: seq<string> := ["N", "NE", "E", "SE", "S", "SW", "W", "NW"]

  /** Python's `round` on a float: to the nearest integer, halves to the even neighbour. */
  function RoundHalfEven(x: real): (r: int)
    ensures x - 0.5 <= r as real <= x + 0.5
    ensures (r as real == x - 0.5 || r as real == x + 0.5) ==> r % 2 == 0
  {
    var f := x.Floor;
    var frac := x - f as real;
    if frac < 0.5 then f
    else if frac > 0.5 then f + 1
    else if f % 2 == 0 then f
    else f + 1
  }

  /** At most one integer is within a half of `x` with ties going to the even one. */
  lemma RoundingIsUnique(x: real, r1: int, r2: int)
    requires x - 0.5 <= r1 as real <= x + 0.5
    requires (r1 as real == x - 0.5 || r1 as real == x + 0.5) ==> r1 % 2 == 0
    requires x - 0.5 <= r2 as real <= x + 0.5
    requires (r2 as real == x - 0.5 || r2 as real == x + 0.5) ==> r2 % 2 == 0
    ensures r1 == r2
  {
  }

  /** Shifting the argument by a whole turn of eight sectors shifts the rounded index by eight. */
  lemma RoundShiftsByEight(x: real)
    ensures RoundHalfEven(x + 8.0) == RoundHalfEven(x) + 8
  {
  }

  /**
    `deg_to_compass8`: `None` for a falsy bearing (absent or zero), otherwise
    the label of `round(deg / 45) % 8`. Dafny's `%` by a positive divisor is
    never negative, as Python's is, so negative bearings wrap the same way.
  */
  function DegToCompass8(deg: Option<real>): (r: Option<string>)
    ensures r.None? <==> deg == None || deg == Some(0.0)
    ensures r.Some? ==> r.value in Directions
  {
    if deg.None? || deg.value == 0.0 then None
    else Some(Directions[RoundHalfEven(deg.value / 45.0) % 8])
  }

  /** A non-zero bearing strictly inside sector `k` (within 22.5 degrees of `45 * k`) gets label `k`. */
  lemma CompassSector(deg: real, k: nat)
    requires k < 8 && deg != 0.0
    requires 45.0 * k as real - 22.5 < deg < 45.0 * k as real + 22.5
    ensures DegToCompass8(Some(deg)) == Some(Directions[k])
  {
  }

  /** Adding a full turn does not change the label, as long as neither bearing is the falsy zero. */
  lemma CompassPeriodic(deg: real)
    requires deg != 0.0 && deg + 360.0 != 0.0
    ensures DegToCompass8(Some(deg + 360.0)) == DegToCompass8(Some(deg))
  {
    assert (deg + 360.0) / 45.0 == deg / 45.0 + 8.0;
    RoundShiftsByEight(deg / 45.0);
    var k := RoundHalfEven(deg / 45.0);
    assert (k + 8) % 8 == k % 8;
  }

  /**
    The boundary cases of banker's rounding and of the falsy zero: 22.5 is
    "N", 67.5 is "E", 360 is "N" (it is truthy), 0 and `None` give no label.
  */
  lemma CompassBoundaries()
    ensures DegToCompass8(Some(22.5)) == Some("N")
    ensures DegToCompass8(Some(67.5)) == Some("E")
    ensures DegToCompass8(Some(45.0)) == Some("NE")
    ensures DegToCompass8(Some(360.0)) == Some("N")
    ensures DegToCompass8(Some(-90.0)) == Some("W")
    ensures DegToCompass8(Some(0.0)) == None
    ensures DegToCompass8(None) == None
  {
  }

  // ----------------------------------------------------------- attributes

  /** What `__getattr__` raises for a name outside the parameter table. */
  datatype AttrError = AttributeError(name: string)

  /** `Weather.__getattr__`: a parameter name reads `data.get(name)`; any other name raises. */
  function GetAttr(data: map<string, real>, name: string): (r: Result<Option<real>, AttrError>)
    ensures r.Ok? <==> name in ParamNames
    ensures r.Err? ==> r.error == AttributeError(name)
    ensures r.Ok? ==> (r.value.Some? <==> name in data)
    ensures r.Ok? && name in data ==> r.value == Some(data[name])
  {
    if name in ParamNames then Ok(if name in data then Some(data[name]) else None)
    else Err(AttributeError(name))
  }

  /** The value an attribute read yields: a number from the cache, or a label bound on the instance. */
  datatype Value = Number(number: Option<real>) | Label(text: Option<string>)

  /** The attribute names the object itself defines, which never reach `__getattr__`. */
  const OwnAttributes: set<string> := {"project_id", "data", "time_utc", "refresh", "deg_to_compass8"}

  /**
    Python's lookup of `weather.<name>`: an instance attribute bound under a
    parameter name (`shadow`) wins; only a name not found there falls through
    to `__getattr__`.
  */
  function Attribute(shadow: map<string, Option<string>>, data: map<string, real>, name: string): (r: Result<Value, AttrError>)
    requires name !in OwnAttributes
    ensures name in shadow ==> r == Ok(Label(shadow[name]))
    ensures name !in shadow ==> (r.Ok? <==> name in ParamNames)
    ensures name !in shadow && r.Ok? ==> r.value == Number(GetAttr(data, name).value)
  {
    if name in shadow then Ok(Label(shadow[name]))
    else
      match GetAttr(data, name)
      case Ok(v) => Ok(Number(v))
      case Err(e) => Err(e)
  }

  /** The instance attributes `__init__` leaves behind: both direction names bound to `None`. */
  const InitShadow: map<string, Option<string>> := map[WindDirection := None, WaveDirection := None]

  /**
    The shadowing defect: whatever the cache holds, reading either direction
    attribute yields the `None` bound in `__init__`, never the cached bearing
    that `__getattr__` would return.
  */
  lemma DirectionsStayNone(data: map<string, real>)
    ensures Attribute(InitShadow, data, WindDirection) == Ok(Label(None))
    ensures Attribute(InitShadow, data, WaveDirection) == Ok(Label(None))
    ensures WindDirection in data ==> GetAttr(data, WindDirection) == Ok(Some(data[WindDirection]))
    ensures WaveDirection in data ==> GetAttr(data, WaveDirection) == Ok(Some(data[WaveDirection]))
  {
  }

  // -------------------------------------------------------------- Weather

  /** `Weather`: the cached readings, their observation time and the instance attributes `__init__` binds. */
  class Weather {
    const projectId: int
    var data: map<string, real>
    var timeUtc: Option<int>
    /** Instance attributes bound under parameter names; they hide `__getattr__` for those names. */
    var shadow: map<string, Option<string>>

    /** Every constructed object has exactly the two direction attributes, both `None`. */
    ghost predicate Valid()
      reads this
    {
      shadow == InitShadow
    }

    /**
      `__init__`: empty cache, no time, then each direction attribute is set
      from a read of itself, which falls through to `__getattr__` on the empty
      cache and so binds `deg_to_compass8(None)`, that is `None`.
    */
    constructor (projectId: int)
      ensures this.projectId == projectId
      ensures data == map[] && timeUtc == None
      ensures Valid()
    {
      this.projectId := projectId;
      data := map[];
      timeUtc := None;
      var inst: map<string, Option<string>> := map[];
      var wind := Attribute(inst, map[], WindDirection);
      inst := inst[WindDirection := DegToCompass8(wind.value.number)];
      var wave := Attribute(inst, map[], WaveDirection);
      inst := inst[WaveDirection := DegToCompass8(wave.value.number)];
      shadow := inst;
    }

    /** `weather.<name>` for a name the object does not define itself. */
    function Lookup(name: string): (r: Result<Value, AttrError>)
      requires name !in OwnAttributes
      reads this
      ensures Valid() && (name == WindDirection || name == WaveDirection) ==> r == Ok(Label(None))
      ensures Valid() && name !in InitShadow ==> (r.Ok? <==> name in ParamNames)
    {
      Attribute(shadow, data, name)
    }

    /**
      `refresh`: fetch the eight parameters in table order; the first failure
      propagates and leaves the cache as it was, otherwise the cache is
      replaced by the new values and the newest timestamp.
    */
    method Refresh(fetch: Endpoint) returns (outcome: Result<(), FetchError>)
      requires Valid()
      modifies this`data, this`timeUtc
      ensures Valid()
      ensures Refreshed(projectId, fetch).Ok? ==>
                outcome.Ok? &&
                data == Refreshed(projectId, fetch).value.values &&
                timeUtc == Refreshed(projectId, fetch).value.timeUtc
      ensures Refreshed(projectId, fetch).Err? ==>
                outcome == Err(Refreshed(projectId, fetch).error) &&
                data == old(data) && timeUtc == old(timeUtc)
    {
      var latestTime: Option<int> := None;
      var buf: map<string, real> := map[];
      var i := 0;
      while i < |ParamTable|
        invariant 0 <= i <= |ParamTable|
        invariant Gather(projectId, fetch, i) == Ok(Snapshot(buf, latestTime))
      {
        var p := ParamTable[i];
        var r := Latest(fetch(projectId, p.id));
        if r.Err? {
          GatherErrSticks(projectId, fetch, i + 1, |ParamTable|);
          return Err(r.error);
        }
        buf := buf[p.name := r.value.value];
        if latestTime.None? || r.value.tsMs > latestTime.value {
          latestTime := Some(r.value.tsMs);
        }
        i := i + 1;
      }
      timeUtc := latestTime;
      data := buf;
      outcome := Ok(());
    }
  }

  /**
    What a caller sees after constructing a cache and refreshing it
    successfully: every parameter but the two directions reads its fetched
    value, and both directions still read `None`.
  */
  method ReadAfterRefresh(fetch: Endpoint) returns (wind: Result<Value, AttrError>, speed: Result<Value, AttrError>)
    requires Refreshed(DefaultProjectId, fetch).Ok?
    ensures wind == Ok(Label(None))
    ensures LatestOf(DefaultProjectId, fetch, 0).Ok?
    ensures speed == Ok(Number(Some(LatestOf(DefaultProjectId, fetch, 0).value.value)))
  {
    var w := new Weather(DefaultProjectId);
    var _ := w.Refresh(fetch);
    RefreshedSnapshot(DefaultProjectId, fetch);
    wind := w.Lookup(WindDirection);
    speed := w.Lookup("wind_speed_mph");
  }
}

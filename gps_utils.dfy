/**
  The location broadcaster of core/gps_utils.py: the `GPSTracker` singleton
  holding the last fix, its guarded start/stop lifecycle over Plyer or the
  desktop stub, its ordered subscriber list and the `last_fix` helper.

  Coordinates and speeds are reals. Subscriber callbacks are opaque ids; each
  call the tracker makes is recorded, in order, in the ghost `trace`.
*/
module GpsUtils {
  import opened Wrappers

  /** An opaque stand-in for a subscribed callback. */
  type SubscriberId = nat

  /** One callback invocation `cb(lat, lon, speed_kph)`. */
  datatype Call = Call(subscriber: SubscriberId, lat: real, lon: real, speedKph: real)

  /** What `last_fix` returns: `(lat, lon, speed_kph)`. */
  datatype Fix = Fix(lat: real, lon: real, speedKph: real)

  /** How Plyer's `gps.configure` followed by `gps.start` ends. */
  datatype PlatformStart = Started | NotImplemented

  const KphPerMps: real := 3.6
  const KnotsPerMps: real := 1.94384
  /** The constant speed the desktop stub reports. */
  const DesktopSpeedMps: real := 1.5

  /** The calls one notification round makes: each subscriber once, in registration order. */
  function Broadcast(subscribers: seq<SubscriberId>, lat: real, lon: real, speedKph: real): (calls: seq<Call>)
    ensures |calls| == |subscribers|
  {
    if subscribers == [] then []
    else
      var n := |subscribers| - 1;
      Broadcast(subscribers[..n], lat, lon, speedKph) + [Call(subscribers[n], lat, lon, speedKph)]
  }

  /** The `k`-th call of a round goes to the `k`-th subscriber, with the round's fix. */
  lemma {:induction false} BroadcastAt(subscribers: seq<SubscriberId>, lat: real, lon: real, speedKph: real, k: nat)
    requires k < |subscribers|
    ensures Broadcast(subscribers, lat, lon, speedKph)[k] == Call(subscribers[k], lat, lon, speedKph)
  {
    var n := |subscribers| - 1;
    if k < n {
      BroadcastAt(subscribers[..n], lat, lon, speedKph, k);
    }
  }

  /** The number of calls a round makes to one subscriber is the number of times it was subscribed. */
  lemma {:induction false} BroadcastCount(subscribers: seq<SubscriberId>, lat: real, lon: real, speedKph: real, cb: SubscriberId)
    ensures multiset(Broadcast(subscribers, lat, lon, speedKph))[Call(cb, lat, lon, speedKph)]
            == multiset(subscribers)[cb]
  {
    if subscribers != [] {
      var n := |subscribers| - 1;
      BroadcastCount(subscribers[..n], lat, lon, speedKph, cb);
      assert subscribers == subscribers[..n] + [subscribers[n]];
    }
  }

  /** `float(kw.get(key, 0.0))`. */
  function Keyword(kw: map<string, real>, key: string): real
  {
    if key in kw then kw[key] else 0.0
  }

  /**
    The reading `last_fix` makes of a tracker's stored state: `None` exactly
    when latitude, longitude and stored speed are all zero.
  */
  function FixReading(lat: real, lon: real, speedMps: real): (r: Option<Fix>)
    ensures r.None? <==> lat == 0.0 && lon == 0.0 && speedMps == 0.0
    ensures r.Some? ==> r.value.lat == lat && r.value.lon == lon
    ensures r.Some? ==> r.value.speedKph == speedMps * KphPerMps
  {
    if lat == lon == 0.0 && speedMps == 0.0 then None
    else Some(Fix(lat, lon, speedMps * KphPerMps))
  }

  /**
    The zero sentinel: a real fix at (0, 0) standing still, and a location
    callback that carries none of the keys, both read as "no fix yet".
  */
  lemma ZeroFixIsNoFix(kw: map<string, real>)
    requires Keyword(kw, "lat") == 0.0 && Keyword(kw, "lon") == 0.0 && Keyword(kw, "speed") == 0.0
    ensures FixReading(Keyword(kw, "lat"), Keyword(kw, "lon"), Keyword(kw, "speed")) == None
  {
  }

  /** `GPSTracker`: the last fix, the lifecycle flag and the subscriber list. */
  class GPSTracker {
    /** `_PLYER_AVAILABLE`: whether the Plyer import succeeded on this platform. */
    const plyerAvailable: bool
    var lat: real
    var lon: real
    var speedMps: real
    var enabled: bool
    var subscribers: seq<SubscriberId>
    /** Desktop `Clock` intervals scheduled for the stub; nothing ever cancels one. */
    var desktopTimers: nat
    /** Every callback invocation made so far, in order. */
    ghost var trace: seq<Call>

    /** The state `__init__` leaves: zero fix, disabled, nobody subscribed, nothing scheduled or called. */
    ghost predicate Initial()
      reads this
    {
      lat == 0.0 && lon == 0.0 && speedMps == 0.0 && !enabled &&
      subscribers == [] && desktopTimers == 0 && trace == []
    }

    constructor (plyerAvailable: bool)
      ensures this.plyerAvailable == plyerAvailable
      ensures Initial()
    {
      this.plyerAvailable := plyerAvailable;
      lat, lon, speedMps := 0.0, 0.0, 0.0;
      enabled := false;
      subscribers := [];
      desktopTimers := 0;
      trace := [];
    }

    /** `speed_kph`, derived from the stored metres per second at read time. */
    function SpeedKph(): (r: real)
      reads this
      ensures r == speedMps * KphPerMps
    {
      speedMps * KphPerMps
    }

    /** `speed_knots`, derived from the stored metres per second at read time. */
    function SpeedKnots(): (r: real)
      reads this
      ensures r == speedMps * KnotsPerMps
    {
      speedMps * KnotsPerMps
    }

    /** `latlon`: the stored position as a pair. */
    function LatLon(): (p: (real, real))
      reads this
      ensures p.0 == lat && p.1 == lon
    {
      (lat, lon)
    }

    /**
      `start`: a no-op when already enabled. Otherwise the desktop stub
      schedules one more interval and enables; under Plyer the tracker is
      enabled only if configure/start succeed, and stays disabled on
      `NotImplementedError`.
    */
    method Start(platform: PlatformStart)
      modifies this`enabled, this`desktopTimers
      ensures old(enabled) ==> enabled && desktopTimers == old(desktopTimers)
      ensures !old(enabled) && !plyerAvailable ==> enabled && desktopTimers == old(desktopTimers) + 1
      ensures !old(enabled) && plyerAvailable ==>
                enabled == (platform == Started) && desktopTimers == old(desktopTimers)
    {
      if enabled {
        return;
      }
      if plyerAvailable {
        match platform
        case Started => enabled := true;
        case NotImplemented =>
      } else {
        desktopTimers := desktopTimers + 1;
        enabled := true;
      }
    }

    /** `stop`: a no-op when disabled; otherwise disables, and leaves the desktop interval running. */
    method Stop()
      modifies this`enabled
      ensures !enabled
    {
      if !enabled {
        return;
      }
      enabled := false;
    }

    /** `subscribe`: append the callback to the end of the list. */
    method Subscribe(cb: SubscriberId)
      modifies this`subscribers
      ensures subscribers == old(subscribers) + [cb]
    {
      subscribers := subscribers + [cb];
    }

    /** The notification loop: call every subscriber, in order, with the stored fix in km/h. */
    method Notify()
      modifies this`trace
      ensures trace == old(trace) + Broadcast(subscribers, lat, lon, SpeedKph())
    {
      var i := 0;
      while i < |subscribers|
        invariant 0 <= i <= |subscribers|
        invariant trace == old(trace) + Broadcast(subscribers[..i], lat, lon, SpeedKph())
      {
        assert subscribers[..i + 1][..i] == subscribers[..i];
        trace := trace + [Call(subscribers[i], lat, lon, SpeedKph())];
        i := i + 1;
      }
      assert subscribers[..i] == subscribers;
    }

    /** `_on_location`: overwrite the fix from the keywords (0.0 for a missing one), then notify. */
    method OnLocation(kw: map<string, real>)
      modifies this`lat, this`lon, this`speedMps, this`trace
      ensures lat == Keyword(kw, "lat") && lon == Keyword(kw, "lon") && speedMps == Keyword(kw, "speed")
      ensures trace == old(trace) + Broadcast(subscribers, lat, lon, speedMps * KphPerMps)
    {
      lat := Keyword(kw, "lat");
      lon := Keyword(kw, "lon");
      speedMps := Keyword(kw, "speed");
      Notify();
    }

    /**
      `_on_status`: reports whether the event is one it logs (the provider
      being enabled or disabled); it changes no tracker state.
    */
    method OnStatus(stype: string, status: string) returns (logged: bool)
      ensures logged <==> status == "provider-enabled" || status == "provider-disabled"
    {
      if status != "provider-enabled" && status != "provider-disabled" {
        return false;
      }
      logged := true;
    }

    /**
      One tick of the desktop stub: store the spiral position it computed
      (given here), the fixed 1.5 m/s, then notify. It does not look at
      `enabled`, so a tick after `stop` still notifies.
    */
    method FakeDesktopTick(spiralLat: real, spiralLon: real)
      modifies this`lat, this`lon, this`speedMps, this`trace
      ensures lat == spiralLat && lon == spiralLon && speedMps == DesktopSpeedMps
      ensures trace == old(trace) + Broadcast(subscribers, lat, lon, DesktopSpeedMps * KphPerMps)
    {
      lat := spiralLat;
      lon := spiralLon;
      speedMps := DesktopSpeedMps;
      Notify();
    }
  }

  /** The class attribute `GPSTracker._instance`, with the platform the module detected. */
  class TrackerRegistry {
    const plyerAvailable: bool
    var instance: GPSTracker?

    constructor (plyerAvailable: bool)
      ensures this.plyerAvailable == plyerAvailable && instance == null
    {
      this.plyerAvailable := plyerAvailable;
      instance := null;
    }

    /** `get_instance`: create the tracker on the first call only; every call returns that one. */
    method GetInstance() returns (t: GPSTracker)
      modifies this
      ensures instance == t
      ensures old(instance) != null ==> t == old(instance)
      ensures old(instance) == null ==> fresh(t) && t.Initial() && t.plyerAvailable == plyerAvailable
    {
      if instance == null {
        instance := new GPSTracker(plyerAvailable);
      }
      t := instance;
    }
  }

  /** `last_fix`: read the shared tracker (creating it if need be). */
  method LastFix(registry: TrackerRegistry) returns (r: Option<Fix>)
    modifies registry
    ensures registry.instance != null
    ensures old(registry.instance) != null ==> registry.instance == old(registry.instance)
    ensures r == FixReading(registry.instance.lat, registry.instance.lon, registry.instance.speedMps)
    ensures old(registry.instance) == null ==> r == None
  {
    var tr := registry.GetInstance();
    r := FixReading(tr.lat, tr.lon, tr.speedMps);
  }

  /** `get_instance` twice yields one and the same tracker. */
  method SingleInstance(registry: TrackerRegistry) returns (same: bool)
    modifies registry
    ensures same
  {
    var a := registry.GetInstance();
    var b := registry.GetInstance();
    same := a == b;
  }

  /**
    A fix at (0, 0) with speed 0 that arrives through `_on_location` is
    afterwards reported by `last_fix` as "no fix yet".
  */
  method ZeroFixAfterUpdate() returns (r: Option<Fix>, ghost calls: seq<Call>)
    ensures r == None
    ensures calls == [Call(7, 0.0, 0.0, 0.0)]
  {
    var registry := new TrackerRegistry(true);
    var tr := registry.GetInstance();
    tr.Subscribe(7);
    tr.OnLocation(map["lat" := 0.0, "lon" := 0.0, "speed" := 0.0]);
    assert tr.subscribers[..0] == [];
    calls := tr.trace;
    r := LastFix(registry);
  }

  /**
    On the desktop, `stop` leaves the stub's interval scheduled: after
    start, stop and start again two intervals run, and a tick after `stop`
    still moves the fix.
  */
  method DesktopStubOutlivesStop() returns (enabled: bool, timers: nat, speedKph: real)
    ensures !enabled && timers == 2
    ensures speedKph == DesktopSpeedMps * KphPerMps
  {
    var tr := new GPSTracker(false);
    tr.Start(Started);
    tr.Stop();
    tr.Start(Started);
    tr.Stop();
    tr.FakeDesktopTick(45.0, -122.0);
    enabled, timers, speedKph := tr.enabled, tr.desktopTimers, tr.SpeedKph();
  }
}

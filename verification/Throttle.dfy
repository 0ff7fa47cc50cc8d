/** The location throttle: a `SET ... EX 3 NX` per update lets one through and drops the rest until
    the key expires. On any trace of update times this is a greedy selection, and the largest one
    with three seconds between its members. */
module Throttle {
  import opened Base
  import opened Constants
  import opened Fare

  /** `SET key 1 EX 3 NX` at time `now`: whether it set the key, and the key afterwards. */
  function SetIfFree(key: Key<string>, now: nat): (bool, Key<string>) {
    if key.Get(now).None? then (true, Present("1", now + LOCATION_THROTTLE_MS)) else (false, key)
  }

  datatype Location = Location(lng: real, lat: real, heading: Option<real>, speed: Option<real>)

  /** A position told to the room of a ride. */
  datatype Broadcast = Broadcast(trip: TripId, location: Location, remainingKm: real, etaMinutes: real, at: nat)

  /** What reaches the socket at time `at`: a location, and what the database then says of the user: his
      driver record (and whether it is active), his STARTED trip, and its distance, None if that query fails. */
  datatype Update = Update(at: nat, location: Location, active: Option<bool>, activeTrip: Option<TripId>,
                           meters: Option<Meters>)

  /** The update is one that would be broadcast. */
  predicate OnTrip(u: Update) {
    u.active.Some? && u.activeTrip.Some?
  }

  function TimesOf(updates: seq<Update>): seq<nat> {
    if updates == [] then [] else [updates[0].at] + TimesOf(updates[1..])
  }

  function BroadcastTimes(broadcasts: seq<Broadcast>): seq<nat> {
    seq(|broadcasts|, i requires 0 <= i < |broadcasts| => broadcasts[i].at)
  }

  // ---- Traces -----------------------------------------------------------------------------

  ghost predicate Nondecreasing(times: seq<nat>) {
    forall i, j :: 0 <= i <= j < |times| ==> times[i] <= times[j]
  }

  /** The update times of a trace that pass the throttle, from a given state of the key. */
  function Passes(times: seq<nat>, key: Key<string>): seq<nat> {
    if times == [] then []
    else
      var (allowed, key') := SetIfFree(key, times[0]);
      (if allowed then [times[0]] else []) + Passes(times[1..], key')
  }

  /** The times of the updates that pass and are broadcast. */
  function Announced(updates: seq<Update>, key: Key<string>): seq<nat> {
    if updates == [] then []
    else
      var (allowed, key') := SetIfFree(key, updates[0].at);
      (if allowed && OnTrip(updates[0]) then [updates[0].at] else []) + Announced(updates[1..], key')
  }

  /** The time from which the key reads as free. */
  function FreeFrom(key: Key<string>): nat {
    if key.Absent? then 0 else key.expiry
  }

  /** A choice of updates, as a mask over the trace; each chosen one comes no earlier than the previous one
      allows. */
  ghost predicate Spaced(times: seq<nat>, mask: seq<bool>, free: nat)
    requires |mask| == |times|
  {
    times == [] ||
    if mask[0] then times[0] >= free && Spaced(times[1..], mask[1..], times[0] + 3000)
    else Spaced(times[1..], mask[1..], free)
  }

  function Chosen(mask: seq<bool>): nat {
    if mask == [] then 0 else (if mask[0] then 1 else 0) + Chosen(mask[1..])
  }

  ghost predicate Apart(p: seq<nat>) {
    forall i, j :: 0 <= i < j < |p| ==> p[i] + 3000 <= p[j]
  }

  ghost predicate DrawnFrom(p: seq<nat>, times: seq<nat>, free: nat) {
    forall x :: x in p ==> x in times && x >= free
  }

  /** Passes come from the trace, at least three seconds apart. */
  lemma {:induction false} PassesAreSpaced(times: seq<nat>, key: Key<string>)
    ensures DrawnFrom(Passes(times, key), times, FreeFrom(key)) && Apart(Passes(times, key))
  {
    if times != [] {
      var (allowed, key') := SetIfFree(key, times[0]);
      PassesAreSpaced(times[1..], key');
      var rest := Passes(times[1..], key');
      assert Passes(times, key) == (if allowed then [times[0]] else []) + rest;
      forall i | 0 <= i < |rest| ensures rest[i] >= FreeFrom(key') {
        assert rest[i] in rest;
      }
    }
  }

  lemma {:induction false} AnnouncedPass(updates: seq<Update>, key: Key<string>)
    ensures DrawnFrom(Announced(updates, key), Passes(TimesOf(updates), key), FreeFrom(key))
    ensures Apart(Announced(updates, key))
  {
    if updates != [] {
      var times := TimesOf(updates);
      assert times[0] == updates[0].at && times[1..] == TimesOf(updates[1..]);
      var (allowed, key') := SetIfFree(key, updates[0].at);
      AnnouncedPass(updates[1..], key');
      var rest, passes := Announced(updates[1..], key'), Passes(TimesOf(updates[1..]), key');
      assert Passes(times, key) == (if allowed then [times[0]] else []) + passes;
      forall i | 0 <= i < |rest| ensures rest[i] in passes && rest[i] >= FreeFrom(key') {
        assert rest[i] in rest;
      }
    }
  }

  /** A key that is free earlier lets at least as many updates through. */
  lemma {:induction false} EarlierIsNoWorse(times: seq<nat>, key: Key<string>, later: Key<string>)
    requires Nondecreasing(times) && FreeFrom(key) <= FreeFrom(later)
    ensures |Passes(times, later)| <= |Passes(times, key)|
    decreases |times|
  {
    if times != [] {
      var rest := times[1..];
      var (allowed, next) := SetIfFree(key, times[0]);
      if SetIfFree(later, times[0]).0 == allowed {
        EarlierIsNoWorse(rest, next, SetIfFree(later, times[0]).1);
      } else if FreeFrom(later) <= FreeFrom(next) {
        OnePassCostsOne(rest, later, times[0]);
      } else {
        EarlierIsNoWorse(rest, next, later);
      }
    }
  }

  /** Letting an update through costs at most one later pass. */
  lemma {:induction false} OnePassCostsOne(times: seq<nat>, key: Key<string>, t: nat)
    requires Nondecreasing(times) && (times != [] ==> t <= times[0])
    requires FreeFrom(key) <= t + LOCATION_THROTTLE_MS
    ensures |Passes(times, key)| <= 1 + |Passes(times, Present("1", t + LOCATION_THROTTLE_MS))|
    decreases |times|
  {
    if times != [] {
      var rest, blocked := times[1..], Present("1", t + LOCATION_THROTTLE_MS);
      if !SetIfFree(key, times[0]).0 {
        OnePassCostsOne(rest, key, t);
      } else if !SetIfFree(blocked, times[0]).0 {
        EarlierIsNoWorse(rest, blocked, SetIfFree(key, times[0]).1);
      }
    }
  }

  /** The throttle is optimal: no other selection of updates with three seconds between its members is
      larger. */
  lemma {:induction false} NoSelectionIsLarger(times: seq<nat>, key: Key<string>, mask: seq<bool>)
    requires Nondecreasing(times) && |mask| == |times| && Spaced(times, mask, FreeFrom(key))
    ensures Chosen(mask) <= |Passes(times, key)|
    decreases |times|
  {
    if times != [] {
      var (allowed, key') := SetIfFree(key, times[0]);
      if mask[0] || !allowed {
        NoSelectionIsLarger(times[1..], key', mask[1..]);
      } else {
        NoSelectionIsLarger(times[1..], key, mask[1..]);
        OnePassCostsOne(times[1..], key, times[0]);
      }
    }
  }

  lemma Fits(span: nat, n: nat)
    requires LOCATION_THROTTLE_MS * (n - 1) <= span
    ensures n <= span / LOCATION_THROTTLE_MS + 1
  {
  }

  lemma {:induction false} SpacedSpan(p: seq<nat>)
    requires p != [] && Apart(p)
    ensures p[|p|-1] - p[0] >= LOCATION_THROTTLE_MS * (|p| - 1)
  {
    if |p| > 1 {
      SpacedSpan(p[..|p|-1]);
    }
  }

  /** A trace that spans `span` ms lets at most floor(span / 3 s) + 1 updates pass. */
  lemma PassesAreFew(times: seq<nat>, key: Key<string>)
    requires Nondecreasing(times) && times != []
    ensures |Passes(times, key)| <= (times[|times|-1] - times[0]) / 3000 + 1
  {
    var p := Passes(times, key);
    PassesAreSpaced(times, key);
    if p != [] {
      SpacedSpan(p);
      assert p[0] in p && p[|p|-1] in p;
      assert p[|p|-1] - p[0] <= times[|times|-1] - times[0];
      Fits(times[|times|-1] - times[0], |p|);
    }
  }

  lemma AnnouncedNext(updates: seq<Update>, i: nat, key: Key<string>)
    requires i < |updates|
    ensures var (allowed, key') := SetIfFree(key, updates[i].at);
            Announced(updates[i..], key)
            == (if allowed && OnTrip(updates[i]) then [updates[i].at] else []) + Announced(updates[i+1..], key')
  {
    assert updates[i..][0] == updates[i] && updates[i..][1..] == updates[i+1..];
  }

  lemma NothingAnnounced(updates: seq<Update>, key: Key<string>)
    ensures updates[0..] == updates && Announced(updates[|updates|..], key) == []
  {
  }

  lemma NoTimes(broadcasts: seq<Broadcast>)
    ensures BroadcastTimes(broadcasts[|broadcasts|..]) == []
  {
  }

  lemma OneMoreTime(broadcasts: seq<Broadcast>, n: nat, b: Broadcast)
    requires n <= |broadcasts|
    ensures BroadcastTimes((broadcasts + [b])[n..]) == BroadcastTimes(broadcasts[n..]) + [b.at]
  {
    assert (broadcasts + [b])[n..] == broadcasts[n..] + [b];
  }

  // ---- The socket -------------------------------------------------------------------------

  /** The socket of one user: his entry in the GEO set, his heartbeat and throttle keys, and what it has
      broadcast. */
  class LocationSocket {
    var position: Option<(real, real)>
    var heartbeat: Key<string>
    var throttle: Key<string>
    var broadcasts: seq<Broadcast>

    constructor (start: Option<(real, real)>)
      ensures position == start && heartbeat == Absent && throttle == Absent && broadcasts == []
    {
      position, heartbeat, throttle, broadcasts := start, Absent, Absent, [];
    }

    /** `updateDriverLocation`: only a driver who is active and in the GEO set is moved, and with the move he
        counts as alive for another minute. */
    method UpdateDriverLocation(now: nat, location: Location, active: Option<bool>)
      modifies this`position, this`heartbeat
      ensures if active == Some(true) && old(position).Some? then
                && position == Some((location.lng, location.lat))
                && forall later: nat :: heartbeat.Get(later).Some? <==> later < now + 60_000
              else position == old(position) && heartbeat == old(heartbeat)
    {
      if active.None? { return; }
      if !active.value { return; }
      if position.None? { return; }
      position := Some((location.lng, location.lat));
      heartbeat := Present("1", now + HEARTBEAT_TTL_MS);
    }

    /** `driver:location-update`. Position and heartbeat are written whatever the throttle says. At most one
        broadcast is made, with the location as received, and only by an update that passes the throttle;
        its ETA is two minutes a kilometre up to rounding. */
    method LocationUpdate(u: Update) returns (allowed: bool)
      modifies this
      ensures if u.active == Some(true) && old(position).Some? then
                && position == Some((u.location.lng, u.location.lat))
                && forall later: nat :: heartbeat.Get(later).Some? <==> later < u.at + 60_000
              else position == old(position) && heartbeat == old(heartbeat)
      ensures (allowed, throttle) == SetIfFree(old(throttle), u.at)
      ensures if allowed && OnTrip(u) then
                exists b :: broadcasts == old(broadcasts) + [b]
                  && b.trip == u.activeTrip.value && b.location == u.location && b.at == u.at
                  && (u.meters.Some? ==>
                        && -0.005 <= b.remainingKm - u.meters.value / 1000.0 <= 0.005
                        && -0.06 <= b.etaMinutes - 2.0 * (u.meters.value / 1000.0) <= 0.06)
                  && (u.meters.None? ==> b.remainingKm == b.etaMinutes == 0.0)
              else broadcasts == old(broadcasts)
    {
      UpdateDriverLocation(u.at, u.location, u.active);
      allowed := throttle.Get(u.at).None?;
      if !allowed { return; }
      throttle := Present("1", u.at + LOCATION_THROTTLE_MS);
      if u.active.None? { return; }
      if u.activeTrip.None? { return; }
      var remainingKm, etaMinutes := 0.0, 0.0;
      if u.meters.Some? {
        remainingKm := StoredKm(u.meters.value);
        etaMinutes := EtaMinutes(remainingKm);
        RoundToCentsIsNearest(u.meters.value / 1000.0);
        EtaError(u.meters.value);
      }
      var b := Broadcast(u.activeTrip.value, u.location, remainingKm, etaMinutes, u.at);
      broadcasts := broadcasts + [b];
    }

    /** A whole trace of updates, as they come in: what is broadcast are passes of the throttle, the ones while
        the driver is on a trip, and they are three seconds apart. */
    method LocationUpdates(updates: seq<Update>)
      modifies this
      ensures old(broadcasts) <= broadcasts
      ensures var times := BroadcastTimes(broadcasts[|old(broadcasts)|..]);
              && times == Announced(updates, old(throttle))
              && DrawnFrom(times, Passes(TimesOf(updates), old(throttle)), FreeFrom(old(throttle)))
              && Apart(times)
    {
      hide Passes;
      hide DrawnFrom;
      hide Apart;
      hide Announced;
      hide BroadcastTimes;
      hide SetIfFree;
      ghost var before, key := broadcasts, throttle;
      NoTimes(before);
      AnnouncedPass(updates, key);
      for i := 0 to |updates|
        invariant before <= broadcasts
        invariant BroadcastTimes(broadcasts[|before|..]) + Announced(updates[i..], throttle) == Announced(updates, key)
      {
        ghost var earlier, now := broadcasts, throttle;
        AnnouncedNext(updates, i, now);
        var allowed := LocationUpdate(updates[i]);
        if allowed && OnTrip(updates[i]) {
          OneMoreTime(earlier, |before|, broadcasts[|earlier|]);
          assert broadcasts == earlier + [broadcasts[|earlier|]];
        }
      }
      NothingAnnounced(updates, throttle);
    }
  }
}

/** The pickup distance shown for each vehicle: one distance-ordered search, one status lookup, an early exit. */
module NearestDrivers {
  import opened Option

  /** A driver found by the search; distances in any unit. */
  datatype Found = Found(driver: nat, distance: real)

  /** Drivers online in this service mode; no vehicle on file serves every type. */
  type Vehicles = map<nat, Option<string>>

  predicate Serves(vehicles: Vehicles, f: Found, vehicle: string) {
    f.driver in vehicles && (vehicles[f.driver].None? || vehicles[f.driver].value == vehicle)
  }

  /** The first of the first n that serves this vehicle. */
  ghost predicate FirstServing(results: seq<Found>, vehicles: Vehicles, vehicle: string, n: nat, k: nat) {
    k < n <= |results| && Serves(vehicles, results[k], vehicle) && forall j :: 0 <= j < k ==> !Serves(vehicles, results[j], vehicle)
  }

  /** What has been found after the first n results, for the vehicle types asked about. */
  ghost predicate Nearest(nearest: map<string, real>, results: seq<Found>, vehicles: Vehicles, types: seq<string>, n: nat) {
    && n <= |results|
    && (forall v <- nearest :: v in types && exists k: nat :: FirstServing(results, vehicles, v, n, k) && nearest[v] == results[k].distance)
    && (forall v <- types :: v !in nearest ==> forall j :: 0 <= j < n ==> !Serves(vehicles, results[j], v))
  }

  ghost predicate Ascending(results: seq<Found>) {
    forall i, j :: 0 <= i < j < |results| ==> results[i].distance <= results[j].distance
  }

  function Members(types: seq<string>): set<string> {
    set v | v in types
  }

  lemma {:induction false} MembersAreAtMost(types: seq<string>)
    ensures |Members(types)| <= |types|
  {
    if types == [] {
      assert Members(types) == {};
    } else {
      MembersAreAtMost(types[1..]);
      assert types == [types[0]] + types[1..];
      assert Members(types) == {types[0]} + Members(types[1..]);
    }
  }

  lemma {:induction false} FullSubset(a: set<string>, b: set<string>)
    requires a <= b && |b| <= |a|
    ensures a == b
  {
    if a != {} {
      var x :| x in a;
      FullSubset(a - {x}, b - {x});
    }
  }

  /** When as many types are found as were asked for, all of them are. */
  lemma AllFound(nearest: map<string, real>, types: seq<string>)
    requires (forall v <- nearest :: v in types) && |nearest| == |types|
    ensures forall v <- types :: v in nearest
  {
    MembersAreAtMost(types);
    FullSubset(nearest.Keys, Members(types));
  }

  /**
   Each type gets the distance of its nearest available driver, and no entry when nobody nearby serves it:
   leaving the loop early loses nothing.
   */
  method NearestDriverDistances(results: seq<Found>, vehicles: Vehicles, types: seq<string>) returns (nearest: map<string, real>)
    requires Ascending(results)
    ensures forall v <- nearest :: v in types
    ensures forall v <- nearest ::
              exists i :: (0 <= i < |results| && nearest[v] == results[i].distance
                           && results[i].driver in vehicles && vehicles[results[i].driver] in {None, Some(v)})
    ensures forall v <- types, i :: 0 <= i < |results| && results[i].driver in vehicles && vehicles[results[i].driver] in {None, Some(v)} ==>
              v in nearest && nearest[v] <= results[i].distance
  {
    hide Nearest, Ascending, Serves;
    nearest := map[];
    var n := 0;
    NothingYet(results, vehicles, types);
    while n < |results|
      invariant n <= |results| && Nearest(nearest, results, vehicles, types, n)
    {
      var found := results[n];
      if found.driver in vehicles {
        nearest := Offer(nearest, results, vehicles, types, n);
      } else {
        Unserved(nearest, results, vehicles, types, n);
      }
      n := n + 1;
      if |nearest| == |types| {
        FoundForGood(nearest, results, vehicles, types, n);
        break;
      }
    }
    Meaning(nearest, results, vehicles, types);
  }

  lemma NothingYet(results: seq<Found>, vehicles: Vehicles, types: seq<string>)
    ensures Nearest(map[], results, vehicles, types, 0)
  {}

  /** One result offered to every vehicle type still without a driver. */
  method Offer(before: map<string, real>, results: seq<Found>, vehicles: Vehicles, types: seq<string>, n: nat)
    returns (nearest: map<string, real>)
    requires n < |results| && results[n].driver in vehicles && Nearest(before, results, vehicles, types, n)
    ensures Nearest(nearest, results, vehicles, types, n + 1)
  {
    hide FirstServing;
    nearest := before;
    var driverVehicle := vehicles[results[n].driver];
    for t := 0 to |types|
      invariant forall v <- before :: v in nearest && nearest[v] == before[v]
      invariant forall v <- nearest :: v in before || (v in types && Serves(vehicles, results[n], v) && nearest[v] == results[n].distance)
      invariant forall u :: 0 <= u < t && Serves(vehicles, results[n], types[u]) ==> types[u] in nearest
    {
      if types[t] !in nearest && (driverVehicle.None? || driverVehicle.value == types[t]) {
        nearest := nearest[types[t] := results[n].distance];
      }
    }
    Extended(before, nearest, results, vehicles, types, n);
  }

  lemma FirstStays(results: seq<Found>, vehicles: Vehicles, v: string, n: nat, m: nat, k: nat)
    requires n <= m <= |results| && FirstServing(results, vehicles, v, n, k)
    ensures FirstServing(results, vehicles, v, m, k)
  {}

  lemma Extended(before: map<string, real>, nearest: map<string, real>, results: seq<Found>, vehicles: Vehicles, types: seq<string>, n: nat)
    requires n < |results| && Nearest(before, results, vehicles, types, n)
    requires forall v <- before :: v in nearest && nearest[v] == before[v]
    requires forall v <- nearest :: v in before || (v in types && Serves(vehicles, results[n], v) && nearest[v] == results[n].distance)
    requires forall v <- types :: Serves(vehicles, results[n], v) ==> v in nearest
    ensures Nearest(nearest, results, vehicles, types, n + 1)
  {
    forall v <- nearest
      ensures exists k: nat :: FirstServing(results, vehicles, v, n + 1, k) && nearest[v] == results[k].distance
    {
      if v in before {
        var k: nat :| FirstServing(results, vehicles, v, n, k) && before[v] == results[k].distance;
        FirstStays(results, vehicles, v, n, n + 1, k);
      } else {
        assert FirstServing(results, vehicles, v, n + 1, n);
      }
    }
  }

  lemma Unserved(nearest: map<string, real>, results: seq<Found>, vehicles: Vehicles, types: seq<string>, n: nat)
    requires n < |results| && results[n].driver !in vehicles && Nearest(nearest, results, vehicles, types, n)
    ensures Nearest(nearest, results, vehicles, types, n + 1)
  {
    Extended(nearest, nearest, results, vehicles, types, n);
  }

  /** Once every type has a driver, the remaining results change nothing. */
  lemma FoundForGood(nearest: map<string, real>, results: seq<Found>, vehicles: Vehicles, types: seq<string>, n: nat)
    requires Nearest(nearest, results, vehicles, types, n) && |nearest| == |types|
    ensures Nearest(nearest, results, vehicles, types, |results|)
  {
    AllFound(nearest, types);
    forall v <- nearest
      ensures exists k: nat :: FirstServing(results, vehicles, v, |results|, k) && nearest[v] == results[k].distance
    {
      var k: nat :| FirstServing(results, vehicles, v, n, k) && nearest[v] == results[k].distance;
      FirstStays(results, vehicles, v, n, |results|, k);
    }
  }

  /** In an ascending list the first serving driver is a nearest one. */
  lemma Meaning(nearest: map<string, real>, results: seq<Found>, vehicles: Vehicles, types: seq<string>)
    requires Ascending(results) && Nearest(nearest, results, vehicles, types, |results|)
    ensures forall v <- nearest :: v in types
    ensures forall v <- nearest ::
              exists i :: (0 <= i < |results| && nearest[v] == results[i].distance
                           && results[i].driver in vehicles && vehicles[results[i].driver] in {None, Some(v)})
    ensures forall v <- types, i :: 0 <= i < |results| && results[i].driver in vehicles && vehicles[results[i].driver] in {None, Some(v)} ==>
              v in nearest && nearest[v] <= results[i].distance
  {
    forall v <- nearest
      ensures exists i :: (0 <= i < |results| && nearest[v] == results[i].distance
                           && results[i].driver in vehicles && vehicles[results[i].driver] in {None, Some(v)})
      ensures forall i :: 0 <= i < |results| && Serves(vehicles, results[i], v) ==> nearest[v] <= results[i].distance
    {
      var k: nat :| FirstServing(results, vehicles, v, |results|, k) && nearest[v] == results[k].distance;
      assert Serves(vehicles, results[k], v);
    }
    forall v <- types, i | 0 <= i < |results| && results[i].driver in vehicles && vehicles[results[i].driver] in {None, Some(v)}
      ensures v in nearest && nearest[v] <= results[i].distance
    {
      assert Serves(vehicles, results[i], v);
    }
  }
}

/** Which tariff prices a vehicle: the most specific match, and the list of vehicles a service offers. */
module Tariffs {
  import opened Option
  import opened Sorting
  import Pricing

  datatype ServiceType = RideService | PackageService | FreightService

  /** No service or area means any. */
  datatype Tariff = Tariff(id: nat, vehicle: string, area: Option<nat>, service: Option<ServiceType>,
                           sortOrder: int, rates: Pricing.Rates, durationMultiplier: real)

  predicate Matches(t: Tariff, vehicle: string, area: Option<nat>, service: Option<ServiceType>) {
    && t.vehicle == vehicle
    && (t.area == area || t.area.None?)
    && (service.None? || t.service == service || t.service.None?)
  }

  function Candidates(tariffs: seq<Tariff>, vehicle: string, area: Option<nat>, service: Option<ServiceType>): seq<Tariff> {
    if tariffs == [] then []
    else (if Matches(tariffs[0], vehicle, area, service) then [tariffs[0]] else [])
         + Candidates(tariffs[1..], vehicle, area, service)
  }

  function Score(t: Tariff, area: Option<nat>, service: Option<ServiceType>): int {
    (if service.Some? && t.service == service then 2 else 0) + (if area.Some? && t.area == area then 1 else 0)
  }

  /** The comparator's key: best score first. */
  function ByScore(area: Option<nat>, service: Option<ServiceType>): Tariff -> int {
    (t: Tariff) => -Score(t, area, service)
  }

  function ResolveTariff(tariffs: seq<Tariff>, vehicle: string, area: Option<nat>, service: Option<ServiceType>): Option<Tariff> {
    var ranked := Sort(ByScore(area, service), Candidates(tariffs, vehicle, area, service));
    if ranked == [] then None else Some(ranked[0])
  }

  // ---------------------------------------------------------------- the choice

  /** A candidate no other candidate outscores. */
  ghost predicate IsBest(t: Tariff, tariffs: seq<Tariff>, vehicle: string, area: Option<nat>, service: Option<ServiceType>) {
    && t in tariffs && Matches(t, vehicle, area, service)
    && forall u <- tariffs :: Matches(u, vehicle, area, service) ==> Score(u, area, service) <= Score(t, area, service)
  }

  lemma {:induction false} CandidatesAre(tariffs: seq<Tariff>, vehicle: string, area: Option<nat>, service: Option<ServiceType>, t: Tariff)
    ensures t in Candidates(tariffs, vehicle, area, service) <==> t in tariffs && Matches(t, vehicle, area, service)
  {
    if tariffs != [] {
      CandidatesAre(tariffs[1..], vehicle, area, service, t);
      assert tariffs == [tariffs[0]] + tariffs[1..];
    }
  }

  /** There is a choice iff something matches, and the choice is a best match. */
  lemma ResolveIsBest(tariffs: seq<Tariff>, vehicle: string, area: Option<nat>, service: Option<ServiceType>)
    ensures var r := ResolveTariff(tariffs, vehicle, area, service);
            && (r.None? <==> forall t <- tariffs :: !Matches(t, vehicle, area, service))
            && (r.Some? ==> IsBest(r.value, tariffs, vehicle, area, service))
  {
    var key, found := ByScore(area, service), Candidates(tariffs, vehicle, area, service);
    forall t
      ensures t in found <==> t in tariffs && Matches(t, vehicle, area, service)
    {
      CandidatesAre(tariffs, vehicle, area, service, t);
    }
    SortKeeps(key, found);
    if found != [] {
      SortMember(key, found, Sort(key, found)[0]);
    }
    forall u | u in tariffs && Matches(u, vehicle, area, service)
      ensures Sort(key, found) != [] && Score(u, area, service) <= Score(Sort(key, found)[0], area, service)
    {
      SortHead(key, found, u);
      KeyIsScore(area, service, u);
      KeyIsScore(area, service, Sort(key, found)[0]);
    }
    hide Sort, Candidates, Matches, Score, ByScore;
  }

  /**
   Stated by the tariffs alone: one naming no area serves every area, one naming no service every service. A vehicle
   is priced iff some tariff of its own serves the trip; the one chosen does, it names the service asked for if any
   that serves does, and among those it names the area if any does.
   */
  lemma ResolveServesTrip(tariffs: seq<Tariff>, vehicle: string, area: Option<nat>, service: Option<ServiceType>)
    ensures var r := ResolveTariff(tariffs, vehicle, area, service);
            && (r.Some? <==> exists t <- tariffs ::
                  t.vehicle == vehicle && t.area in {None, area} && (service.None? || t.service in {None, service}))
            && (r.Some? ==>
                  && r.value in tariffs && r.value.vehicle == vehicle && r.value.area in {None, area}
                  && (service.None? || r.value.service in {None, service})
                  && forall t <- tariffs ::
                       t.vehicle == vehicle && t.area in {None, area} && (service.None? || t.service in {None, service}) ==>
                         && (service.Some? && t.service == service ==> r.value.service == service)
                         && (area.Some? && t.area == area && (service.None? || t.service == r.value.service) ==> r.value.area == area))
  {
    ResolveIsBest(tariffs, vehicle, area, service);
    hide ResolveTariff;
  }

  lemma KeyIsScore(area: Option<nat>, service: Option<ServiceType>, t: Tariff)
    ensures ByScore(area, service)(t) == -Score(t, area, service)
  {}

  /** Among best matches the one stored first wins. */
  lemma FirstBestWins(t: Tariff, rest: seq<Tariff>, vehicle: string, area: Option<nat>, service: Option<ServiceType>)
    requires IsBest(t, [t] + rest, vehicle, area, service)
    ensures ResolveTariff([t] + rest, vehicle, area, service) == Some(t)
  {
    var key, all := ByScore(area, service), [t] + rest;
    var others := Candidates(rest, vehicle, area, service);
    assert all[0] == t && all[1..] == rest && Candidates(all, vehicle, area, service) == [t] + others;
    assert t in all;
    forall u | u in others
      ensures key(t) <= key(u)
    {
      CandidatesAre(rest, vehicle, area, service, u);
      assert u in all;
    }
    SortPutsFirst(key, t, others);
    hide Sort, Candidates, Matches, Score, ByScore;
  }

  lemma SortPutsFirst(key: Tariff -> int, t: Tariff, others: seq<Tariff>)
    requires forall u <- others :: key(t) <= key(u)
    ensures Sort(key, [t] + others) != [] && Sort(key, [t] + others)[0] == t
  {
    assert ([t] + others)[1..] == others;
    var sorted := Sort(key, others);
    if sorted != [] {
      SortMember(key, others, sorted[0]);
    }
  }

  lemma {:induction false} Remove(s: seq<Tariff>, t: Tariff) returns (rest: seq<Tariff>)
    requires t in s
    ensures multiset([t] + rest) == multiset(s)
  {
    if s[0] == t {
      rest := s[1..];
      assert s == [t] + rest;
    } else {
      var most := Remove(s[1..], t);
      rest := [s[0]] + most;
      assert s == [s[0]] + s[1..];
      assert multiset([t] + rest) == multiset{s[0]} + multiset([t] + most);
    }
  }

  lemma SameMembers(a: seq<Tariff>, b: seq<Tariff>)
    requires multiset(a) == multiset(b)
    ensures forall t :: t in a <==> t in b
  {
    forall t
      ensures t in a <==> t in b
    {
      assert t in multiset(a) <==> t in multiset(b);
    }
  }

  /** Storage order never changes the choice exactly when all best matches are one tariff. */
  lemma OrderIsIrrelevantIff(tariffs: seq<Tariff>, vehicle: string, area: Option<nat>, service: Option<ServiceType>)
    ensures (forall p :: multiset(p) == multiset(tariffs) ==>
               ResolveTariff(p, vehicle, area, service) == ResolveTariff(tariffs, vehicle, area, service))
            <==>
            (forall t, u :: IsBest(t, tariffs, vehicle, area, service) && IsBest(u, tariffs, vehicle, area, service) ==> t == u)
  {
    ResolveIsBest(tariffs, vehicle, area, service);
    hide ResolveTariff;
    var chosen := ResolveTariff(tariffs, vehicle, area, service);
    if forall t, u :: IsBest(t, tariffs, vehicle, area, service) && IsBest(u, tariffs, vehicle, area, service) ==> t == u {
      forall p | multiset(p) == multiset(tariffs)
        ensures ResolveTariff(p, vehicle, area, service) == chosen
      {
        SameMembers(p, tariffs);
        ResolveIsBest(p, vehicle, area, service);
        var other := ResolveTariff(p, vehicle, area, service);
        if other.Some? {
          assert IsBest(other.value, tariffs, vehicle, area, service);
        }
      }
    } else {
      var t, u :| IsBest(t, tariffs, vehicle, area, service) && IsBest(u, tariffs, vehicle, area, service) && t != u;
      var loser := if chosen == Some(t) then u else t;
      var rest := Remove(tariffs, loser);
      SameMembers([loser] + rest, tariffs);
      FirstBestWins(loser, rest, vehicle, area, service);
      assert ResolveTariff([loser] + rest, vehicle, area, service) != chosen;
    }
  }

  /** At most one active tariff for a vehicle, area and service: what createTariff checks. */
  ghost predicate OnePerKey(tariffs: seq<Tariff>) {
    forall t, u :: t in tariffs && u in tariffs && SameKey(t, u) ==> t == u
  }

  predicate SameKey(t: Tariff, u: Tariff) {
    t.vehicle == u.vehicle && t.area == u.area && t.service == u.service
  }

  function CreateTariff(tariffs: seq<Tariff>, t: Tariff): Option<seq<Tariff>> {
    if exists u <- tariffs :: SameKey(t, u) then None else Some(tariffs + [t])
  }

  /** updateTariff looks for no conflict. */
  function UpdateTariff(tariffs: seq<Tariff>, i: nat, t: Tariff): seq<Tariff>
    requires i < |tariffs|
  {
    tariffs[i := t]
  }

  /** A tariff is created unless one has its vehicle, area and service; creating keeps one per key, and updating does exactly when no other has the new key. */
  lemma WritesKeepOnePerKey(tariffs: seq<Tariff>, i: nat, t: Tariff)
    requires OnePerKey(tariffs) && i < |tariffs|
    ensures CreateTariff(tariffs, t) == None <==> exists u <- tariffs :: u.vehicle == t.vehicle && u.area == t.area && u.service == t.service
    ensures CreateTariff(tariffs, t).Some? ==> CreateTariff(tariffs, t).value == tariffs + [t] && OnePerKey(CreateTariff(tariffs, t).value)
    ensures OnePerKey(UpdateTariff(tariffs, i, t))
            <==> forall j :: 0 <= j < |tariffs| && j != i && SameKey(tariffs[j], t) ==> tariffs[j] == t
  {
    var after := UpdateTariff(tariffs, i, t);
    assert after[i] in after;
    forall j | 0 <= j < |tariffs| && j != i
      ensures tariffs[j] in after
    {
      assert after[j] == tariffs[j];
    }
  }

  /** With one tariff per key, the choice for a given service depends on the tariffs alone, not on their order. */
  lemma OrderIsIrrelevant(tariffs: seq<Tariff>, other: seq<Tariff>, vehicle: string, area: Option<nat>, service: ServiceType)
    requires OnePerKey(tariffs) && multiset(other) == multiset(tariffs)
    ensures ResolveTariff(other, vehicle, area, Some(service)) == ResolveTariff(tariffs, vehicle, area, Some(service))
  {
    OrderIsIrrelevantIff(tariffs, vehicle, area, Some(service));
    forall t, u | IsBest(t, tariffs, vehicle, area, Some(service)) && IsBest(u, tariffs, vehicle, area, Some(service))
      ensures t == u
    {
      assert Score(t, area, Some(service)) == Score(u, area, Some(service));
    }
    hide ResolveTariff;
  }

  /** A tariff for the service always beats one that is only for the area; among equals in that, the area decides. */
  lemma ServiceBeatsArea(tariffs: seq<Tariff>, vehicle: string, area: Option<nat>, service: ServiceType, u: Tariff)
    requires u in tariffs && Matches(u, vehicle, area, Some(service))
    ensures var r := ResolveTariff(tariffs, vehicle, area, Some(service));
            && r.Some?
            && (u.service == Some(service) ==> r.value.service == Some(service))
            && (r.value.service == u.service && u.area.Some? ==> r.value.area == u.area)
  {
    ResolveIsBest(tariffs, vehicle, area, Some(service));
    hide ResolveTariff;
  }

  // ---------------------------------------------------------------- the vehicle list

  /** new Set(...): first occurrences, in order. */
  function Distinct(s: seq<string>): seq<string>
    decreases |s|
  {
    if s == [] then []
    else Distinct(s[..|s| - 1]) + if s[|s| - 1] in s[..|s| - 1] then [] else [s[|s| - 1]]
  }

  function Vehicles(tariffs: seq<Tariff>, service: ServiceType): seq<string> {
    if tariffs == [] then []
    else (if tariffs[0].service == Some(service) || tariffs[0].service.None? then [tariffs[0].vehicle] else [])
         + Vehicles(tariffs[1..], service)
  }

  function ResolveEach(vehicles: seq<string>, tariffs: seq<Tariff>, area: Option<nat>, service: ServiceType): seq<Tariff>
    decreases |vehicles|
  {
    if vehicles == [] then []
    else
      var r := ResolveTariff(tariffs, vehicles[|vehicles| - 1], area, Some(service));
      ResolveEach(vehicles[..|vehicles| - 1], tariffs, area, service) + if r.Some? then [r.value] else []
  }

  function SortOrder(t: Tariff): int {
    t.sortOrder
  }

  function ListActiveTariffsForService(tariffs: seq<Tariff>, service: ServiceType, area: Option<nat>): seq<Tariff> {
    Sort(SortOrder, ResolveEach(Distinct(Vehicles(tariffs, service)), tariffs, area, service))
  }

  ghost predicate NoRepeats(s: seq<string>) {
    forall i, j :: 0 <= i < j < |s| ==> s[i] != s[j]
  }

  lemma {:induction false} DistinctAre(s: seq<string>)
    ensures NoRepeats(Distinct(s)) && forall v :: v in Distinct(s) <==> v in s
    decreases |s|
  {
    if s != [] {
      DistinctAre(s[..|s| - 1]);
      assert s == s[..|s| - 1] + [s[|s| - 1]];
    }
  }

  lemma {:induction false} VehiclesAre(tariffs: seq<Tariff>, service: ServiceType, v: string)
    ensures v in Vehicles(tariffs, service)
            <==> exists t <- tariffs :: t.vehicle == v && (t.service == Some(service) || t.service.None?)
  {
    if tariffs != [] {
      VehiclesAre(tariffs[1..], service, v);
      assert tariffs == [tariffs[0]] + tariffs[1..];
    }
  }

  lemma ResolvedVehicle(tariffs: seq<Tariff>, v: string, area: Option<nat>, service: ServiceType)
    ensures var r := ResolveTariff(tariffs, v, area, Some(service));
            r.Some? ==> r.value.vehicle == v && v in Vehicles(tariffs, service)
  {
    ResolveIsBest(tariffs, v, area, Some(service));
    VehiclesAre(tariffs, service, v);
    hide ResolveTariff, Vehicles;
  }

  /** Each vehicle of the list is resolved, and listed once. */
  lemma {:induction false} ResolveEachAre(vehicles: seq<string>, tariffs: seq<Tariff>, area: Option<nat>, service: ServiceType)
    requires NoRepeats(vehicles)
    ensures var r := ResolveEach(vehicles, tariffs, area, service);
            && (forall t :: t in r <==> t.vehicle in vehicles && ResolveTariff(tariffs, t.vehicle, area, Some(service)) == Some(t))
            && (forall i, j :: 0 <= i < j < |r| ==> r[i].vehicle != r[j].vehicle)
    decreases |vehicles|
  {
    hide ResolveTariff;
    if vehicles != [] {
      var n := |vehicles| - 1;
      ResolveEachAre(vehicles[..n], tariffs, area, service);
      ResolvedVehicle(tariffs, vehicles[n], area, service);
      assert vehicles == vehicles[..n] + [vehicles[n]];
      var most := ResolveEach(vehicles[..n], tariffs, area, service);
      forall i | 0 <= i < |most|
        ensures most[i].vehicle != vehicles[n]
      {
        assert most[i] in most;
      }
    }
  }

  lemma DistinctVehiclesSurviveSort(s: seq<Tariff>)
    requires forall i, j :: 0 <= i < j < |s| ==> s[i].vehicle != s[j].vehicle
    ensures var r := Sort(SortOrder, s);
            && (forall t :: t in r <==> t in s)
            && (forall i, j :: 0 <= i < j < |r| ==> r[i].vehicle != r[j].vehicle)
  {
    var r := Sort(SortOrder, s);
    SortKeeps(SortOrder, s);
    forall t
      ensures t in r <==> t in s
    {
      SortMember(SortOrder, s, t);
    }
    forall i, j | 0 <= i < j < |r|
      ensures r[i].vehicle != r[j].vehicle
    {
      if r[i].vehicle == r[j].vehicle {
        assert r[i] in r && r[j] in r;
        var a :| 0 <= a < |s| && s[a] == r[i];
        var b :| 0 <= b < |s| && s[b] == r[j];
        assert a == b;
        Twice(r, i, j);
        Once(s, a);
      }
    }
  }

  lemma Twice(s: seq<Tariff>, i: nat, j: nat)
    requires i < j < |s| && s[i] == s[j]
    ensures multiset(s)[s[i]] >= 2
  {
    assert s == s[..j] + s[j..];
    assert s[i] in multiset(s[..j]) && s[j] in multiset(s[j..]);
  }

  lemma Once(s: seq<Tariff>, a: nat)
    requires a < |s| && forall i, j :: 0 <= i < j < |s| ==> s[i].vehicle != s[j].vehicle
    ensures multiset(s)[s[a]] <= 1
  {
    var x := s[a];
    assert s == s[..a] + [x] + s[a + 1..];
    assert x !in s[..a] && x !in s[a + 1..];
  }

  /**
   The service's list has each vehicle once, in sort order, and holds a tariff exactly when getActiveTariff
   would return that tariff for its vehicle; so a vehicle is listed iff it can be priced.
   */
  lemma ListIsWhatResolves(tariffs: seq<Tariff>, service: ServiceType, area: Option<nat>)
    ensures var list := ListActiveTariffsForService(tariffs, service, area);
            && (forall t :: t in list <==> ResolveTariff(tariffs, t.vehicle, area, Some(service)) == Some(t))
            && (forall i, j :: 0 <= i < j < |list| ==> list[i].vehicle != list[j].vehicle && list[i].sortOrder <= list[j].sortOrder)
  {
    var offered := Distinct(Vehicles(tariffs, service));
    var resolved := ResolveEach(offered, tariffs, area, service);
    DistinctAre(Vehicles(tariffs, service));
    ResolveEachAre(offered, tariffs, area, service);
    DistinctVehiclesSurviveSort(resolved);
    SortKeeps(SortOrder, resolved);
    var list := ListActiveTariffsForService(tariffs, service, area);
    forall t: Tariff | ResolveTariff(tariffs, t.vehicle, area, Some(service)) == Some(t)
      ensures t in list
    {
      ResolvedVehicle(tariffs, t.vehicle, area, service);
    }
    forall i, j | 0 <= i < j < |list|
      ensures list[i].sortOrder <= list[j].sortOrder
    {
      assert SortOrder(list[i]) <= SortOrder(list[j]);
    }
    hide ResolveTariff, Sort, ResolveEach, Vehicles, Distinct;
  }
}

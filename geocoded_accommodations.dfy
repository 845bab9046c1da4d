/** The accommodation resolution pipeline (`useGeocodedAccommodations`): a
    cache pre-pass, a sequential resolution loop with progress and failure
    counters, the merge of resolved coordinates into the records and the
    choice of the map's venue centre. */
module GeocodedAccommodations {
  import opened Wrappers
  import opened Strings
  import opened Types
  import opened Geocoding

  /** The build-time switch; with it off the hook takes the disabled path. */
  const USE_GEOCODING: bool := false

  datatype GeocodingState = GeocodingState(
    isLoading: bool,
    progress: nat,
    total: nat,
    error: Option<string>,
    failedCount: nat)

  datatype HookResult = HookResult(
    accommodations: seq<Accommodation>,
    geocodingState: GeocodingState,
    venueCenter: Option<LatLng>)

  // ---------------------------------------------------------------------
  // Venue centre and merge

  /** `find(a => a.isVenue)`, as an index. */
  function FirstVenue(list: seq<Accommodation>): (r: Option<nat>)
    ensures r.Some? ==> r.value < |list| && list[r.value].isVenue
    ensures r.Some? ==> forall j :: 0 <= j < r.value ==> !list[j].isVenue
    ensures r.None? ==> forall j :: 0 <= j < |list| ==> !list[j].isVenue
  {
    if list == [] then None
    else if list[0].isVenue then Some(0)
    else match FirstVenue(list[1..])
      case None => None
      case Some(i) => Some(i + 1)
  }

  /** The position of the first venue record, or none. */
  function VenueCenter(list: seq<Accommodation>): (r: Option<LatLng>)
    ensures r.None? <==> forall j :: 0 <= j < |list| ==> !list[j].isVenue
    ensures r.Some? ==> exists i :: 0 <= i < |list| && list[i].isVenue && r.value == Position(list[i])
                                    && forall j :: 0 <= j < i ==> !list[j].isVenue
  {
    match FirstVenue(list)
    case None => None
    case Some(i) => Some(Position(list[i]))
  }

  /** `b` is `a` with at most its coordinates changed. */
  predicate OnlyMoved(a: Accommodation, b: Accommodation) {
    b == a.(lat := b.lat, lng := b.lng)
  }

  function MergeOne(a: Accommodation, coords: map<string, Location>): Accommodation {
    if a.id in coords then a.(lat := coords[a.id].lat, lng := coords[a.id].lng) else a
  }

  /** The merge `useMemo`: same length and order; a record whose id has a
      resolved location gets its coordinates, every other field untouched. */
  function Merge(list: seq<Accommodation>, coords: map<string, Location>): (r: seq<Accommodation>)
    ensures |r| == |list|
    ensures forall i :: 0 <= i < |list| ==> OnlyMoved(list[i], r[i])
    ensures forall i :: 0 <= i < |list| && list[i].id in coords ==>
              r[i].lat == coords[list[i].id].lat && r[i].lng == coords[list[i].id].lng
    ensures forall i :: 0 <= i < |list| && list[i].id !in coords ==> r[i] == list[i]
  {
    seq(|list|, i requires 0 <= i < |list| => MergeOne(list[i], coords))
  }

  lemma MergeNothing(list: seq<Accommodation>)
    ensures Merge(list, map[]) == list
  {
  }

  lemma MergeIdempotent(list: seq<Accommodation>, coords: map<string, Location>)
    ensures Merge(Merge(list, coords), coords) == Merge(list, coords)
  {
  }

  /** Merging never changes which record is the venue. */
  lemma {:induction false} MergeKeepsFirstVenue(list: seq<Accommodation>, coords: map<string, Location>)
    ensures FirstVenue(Merge(list, coords)) == FirstVenue(list)
  {
    if list != [] {
      assert Merge(list, coords)[1..] == Merge(list[1..], coords);
      MergeKeepsFirstVenue(list[1..], coords);
    }
  }

  /** The venue centre follows the venue's resolved location when it has one
      and its static coordinates otherwise. */
  lemma MergedVenueCenter(list: seq<Accommodation>, coords: map<string, Location>)
    ensures FirstVenue(list).None? ==> VenueCenter(Merge(list, coords)).None?
    ensures FirstVenue(list).Some? && list[FirstVenue(list).value].id in coords ==>
              var c := coords[list[FirstVenue(list).value].id];
              VenueCenter(Merge(list, coords)) == Some(LatLng(c.lat, c.lng))
    ensures FirstVenue(list).Some? && list[FirstVenue(list).value].id !in coords ==>
              VenueCenter(Merge(list, coords)) == Some(Position(list[FirstVenue(list).value]))
  {
    MergeKeepsFirstVenue(list, coords);
  }

  /** The disabled fast path: the records as given, a finished state with no
      failures, and the static venue position. */
  function DisabledResult(list: seq<Accommodation>): (r: HookResult)
    ensures r.accommodations == list
    ensures !r.geocodingState.isLoading && r.geocodingState.error.None? && r.geocodingState.failedCount == 0
    ensures r.geocodingState.progress == r.geocodingState.total == |list|
    ensures r.venueCenter == VenueCenter(list)
  {
    HookResult(list, GeocodingState(false, |list|, |list|, None, 0), VenueCenter(list))
  }

  /** The disabled path shows what the enabled path would show with nothing
      resolved. */
  lemma DisabledShowsStaticCoordinates(list: seq<Accommodation>)
    ensures DisabledResult(list).accommodations == Merge(list, map[])
    ensures DisabledResult(list).venueCenter == VenueCenter(Merge(list, map[]))
  {
    MergeNothing(list);
  }

  // ---------------------------------------------------------------------
  // The advisory error

  const ERROR_PREFIX: string := "Geocoding falhou para "
  const ERROR_SUFFIX: string :=
    " endereço(s). Verifique se a Geocoding API está habilitada no Google Cloud Console."

  function ErrorMessage(failed: nat): string {
    ERROR_PREFIX + NatToString(failed) + ERROR_SUFFIX
  }

  /** The error is set exactly when something failed. */
  function FinalError(failed: nat): (r: Option<string>)
    ensures r.Some? <==> failed > 0
    ensures r.Some? ==> r.value == ErrorMessage(failed)
  {
    if failed > 0 then Some(ErrorMessage(failed)) else None
  }

  /** The message embeds the failure count: different counts give different
      messages. */
  lemma ErrorMessageInjective(a: nat, b: nat)
    ensures ErrorMessage(a) == ErrorMessage(b) ==> a == b
  {
    if ErrorMessage(a) == ErrorMessage(b) {
      var p := |ERROR_PREFIX|;
      var na, nb := NatToString(a), NatToString(b);
      assert |na| == |nb|;
      assert na == ErrorMessage(a)[p..p + |na|];
      assert nb == ErrorMessage(b)[p..p + |nb|];
      NatToStringInjective(a, b);
    }
  }

  // ---------------------------------------------------------------------
  // The cache pre-pass

  /** The cache as the pre-pass reads it: address to cached location. */
  function CacheView(item: StoredItem): string -> Option<Location> {
    address => Lookup(item, address)
  }

  /** The records whose address misses the cache, in input order. */
  function Uncached(list: seq<Accommodation>, cache: string -> Option<Location>): (r: seq<Accommodation>)
    ensures |r| <= |list|
  {
    if list == [] then []
    else
      var rest := Uncached(list[..|list| - 1], cache);
      var a := list[|list| - 1];
      if cache(a.address).Some? then rest else rest + [a]
  }

  /** The cached locations by record id, a later record overriding an earlier one. */
  function CachedCoords(list: seq<Accommodation>, cache: string -> Option<Location>): map<string, Location> {
    if list == [] then map[]
    else
      var m := CachedCoords(list[..|list| - 1], cache);
      var a := list[|list| - 1];
      match cache(a.address)
      case Some(loc) => m[a.id := loc]
      case None => m
  }

  predicate HitAt(list: seq<Accommodation>, cache: string -> Option<Location>, id: string, i: int) {
    0 <= i < |list| && list[i].id == id && cache(list[i].address).Some?
  }

  /** A record needs resolving iff its address misses the cache. */
  lemma {:induction false} UncachedMember(list: seq<Accommodation>, cache: string -> Option<Location>, a: Accommodation)
    ensures a in Uncached(list, cache) <==> a in list && cache(a.address).None?
  {
    if list != [] {
      var init := list[..|list| - 1];
      UncachedMember(init, cache, a);
      assert list == init + [list[|list| - 1]];
    }
  }

  lemma UncachedMiss(list: seq<Accommodation>, cache: string -> Option<Location>, k: nat)
    requires k < |Uncached(list, cache)|
    ensures cache(Uncached(list, cache)[k].address).None?
  {
    UncachedMember(list, cache, Uncached(list, cache)[k]);
  }

  /** An id gets a cached location iff some record with that id hits the
      cache. */
  lemma {:induction false} CachedCoordsKey(list: seq<Accommodation>, cache: string -> Option<Location>, id: string)
    ensures id in CachedCoords(list, cache) <==> exists i :: HitAt(list, cache, id, i)
  {
    if list != [] {
      var n := |list| - 1;
      var init := list[..n];
      CachedCoordsKey(init, cache, id);
      var lastHit := list[n].id == id && cache(list[n].address).Some?;
      assert id in CachedCoords(list, cache) <==> lastHit || id in CachedCoords(init, cache);
      if lastHit {
        assert HitAt(list, cache, id, n);
      }
      if exists i :: HitAt(init, cache, id, i) {
        var i :| HitAt(init, cache, id, i);
        assert init[i] == list[i] && HitAt(list, cache, id, i);
      }
      if exists i :: HitAt(list, cache, id, i) {
        var i :| HitAt(list, cache, id, i);
        if i < n {
          assert init[i] == list[i] && HitAt(init, cache, id, i);
        }
      }
    }
  }

  /** The location recorded for an id is the cache entry of a record with that id. */
  lemma {:induction false} CachedCoordsValue(list: seq<Accommodation>, cache: string -> Option<Location>, id: string)
    requires id in CachedCoords(list, cache)
    ensures exists i :: HitAt(list, cache, id, i) && cache(list[i].address) == Some(CachedCoords(list, cache)[id])
  {
    var n := |list| - 1;
    var init := list[..n];
    if list[n].id == id && cache(list[n].address).Some? {
      assert HitAt(list, cache, id, n);
    } else {
      CachedCoordsValue(init, cache, id);
      var j :| HitAt(init, cache, id, j) && cache(init[j].address) == Some(CachedCoords(init, cache)[id]);
      assert init[j] == list[j] && HitAt(list, cache, id, j);
    }
  }

  /** A cold cache sends every record to the resolver. */
  lemma {:induction false} ColdCacheNeedsAll(list: seq<Accommodation>)
    ensures Uncached(list, CacheView(Missing)) == list
    ensures CachedCoords(list, CacheView(Missing)) == map[]
  {
    if list != [] {
      ColdCacheNeedsAll(list[..|list| - 1]);
      assert CacheView(Missing)(list[|list| - 1].address).None?;
      assert list == list[..|list| - 1] + [list[|list| - 1]];
    }
  }

  /** Scanning one more record of the pre-pass: a hit records its location,
      a miss joins the queue. */
  lemma PrepassStep(list: seq<Accommodation>, cache: string -> Option<Location>, i: nat)
    requires i < |list|
    ensures Uncached(list[..i + 1], cache) ==
      if cache(list[i].address).Some? then Uncached(list[..i], cache) else Uncached(list[..i], cache) + [list[i]]
    ensures CachedCoords(list[..i + 1], cache) ==
      if cache(list[i].address).Some? then CachedCoords(list[..i], cache)[list[i].id := cache(list[i].address).value]
      else CachedCoords(list[..i], cache)
  {
    assert list[..i + 1][..i] == list[..i];
  }

  /** The first pass of `geocodeAll`: a record with a cache hit has its
      location recorded and counts as completed; every other one queues for
      resolution. */
  method CachePrepass(geo: Geocoder, list: seq<Accommodation>)
    returns (coordsMap: map<string, Location>, completed: nat, needs: seq<Accommodation>)
    ensures needs == Uncached(list, CacheView(geo.storage))
    ensures coordsMap == CachedCoords(list, CacheView(geo.storage))
    ensures completed + |needs| == |list|
  {
    coordsMap, completed, needs := map[], 0, [];
    for i := 0 to |list|
      invariant needs == Uncached(list[..i], CacheView(geo.storage))
      invariant coordsMap == CachedCoords(list[..i], CacheView(geo.storage))
      invariant completed + |needs| == i
    {
      var cached := geo.GetCachedLocation(list[i].address);
      PrepassStep(list, CacheView(geo.storage), i);
      if cached.Some? {
        coordsMap := coordsMap[list[i].id := cached.value];
        completed := completed + 1;
      } else {
        needs := needs + [list[i]];
      }
    }
    assert list[..|list|] == list;
  }

  // ---------------------------------------------------------------------
  // The resolution loop

  /** The locations the loop records, in call order, over `base`. */
  function Successes(base: map<string, Location>, accs: seq<Accommodation>, outs: seq<Option<Location>>)
    : map<string, Location>
    requires |accs| == |outs|
  {
    if accs == [] then base
    else
      var n := |accs| - 1;
      var m := Successes(base, accs[..n], outs[..n]);
      match outs[n]
      case Some(loc) => m[accs[n].id := loc]
      case None => m
  }

  predicate SuccessAt(accs: seq<Accommodation>, outs: seq<Option<Location>>, id: string, i: int)
    requires |accs| == |outs|
  {
    0 <= i < |accs| && accs[i].id == id && outs[i].Some?
  }

  /** The loop adds exactly the ids it resolved and keeps the rest of `base`. */
  lemma {:induction false} SuccessesKey(base: map<string, Location>, accs: seq<Accommodation>,
                                        outs: seq<Option<Location>>, id: string)
    requires |accs| == |outs|
    ensures id in Successes(base, accs, outs) <==> id in base || exists i :: SuccessAt(accs, outs, id, i)
    ensures (forall i :: !SuccessAt(accs, outs, id, i)) && id in base ==> Successes(base, accs, outs)[id] == base[id]
  {
    if accs != [] {
      var n := |accs| - 1;
      SuccessesKey(base, accs[..n], outs[..n], id);
      forall i | SuccessAt(accs[..n], outs[..n], id, i)
        ensures SuccessAt(accs, outs, id, i)
      {
      }
      if exists i :: SuccessAt(accs, outs, id, i) {
        var i :| SuccessAt(accs, outs, id, i);
        if i < n {
          assert SuccessAt(accs[..n], outs[..n], id, i);
        }
      }
      if forall i :: !SuccessAt(accs, outs, id, i) {
        assert !SuccessAt(accs, outs, id, n);
        forall i | 0 <= i < n
          ensures !SuccessAt(accs[..n], outs[..n], id, i)
        {
          assert !SuccessAt(accs, outs, id, i);
        }
      }
    }
  }

  /** The number of calls that came back empty. */
  function FailCount(outs: seq<Option<Location>>): (r: nat)
    ensures r <= |outs|
  {
    if outs == [] then 0
    else FailCount(outs[..|outs| - 1]) + (if outs[|outs| - 1].None? then 1 else 0)
  }

  /** When every call fails, the loop records no location and counts every
      call as a failure. */
  lemma NothingSucceeded(base: map<string, Location>, accs: seq<Accommodation>, outs: seq<Option<Location>>)
    requires |accs| == |outs| && forall j :: 0 <= j < |outs| ==> outs[j].None?
    ensures Successes(base, accs, outs) == base && FailCount(outs) == |outs|
  {
    FailCountExtremes(outs);
    forall id ensures id in Successes(base, accs, outs) <==> id in base {
      SuccessesKey(base, accs, outs, id);
    }
    forall id | id in base ensures Successes(base, accs, outs)[id] == base[id] {
      SuccessesKey(base, accs, outs, id);
    }
  }

  /** Nothing fails iff every call resolved, and everything fails iff no call did. */
  lemma {:induction false} FailCountExtremes(outs: seq<Option<Location>>)
    ensures FailCount(outs) == 0 <==> forall j :: 0 <= j < |outs| ==> outs[j].Some?
    ensures FailCount(outs) == |outs| <==> forall j :: 0 <= j < |outs| ==> outs[j].None?
  {
    if outs != [] {
      var n := |outs| - 1;
      FailCountExtremes(outs[..n]);
      assert forall j :: 0 <= j < n ==> outs[..n][j] == outs[j];
    }
  }

  /** Whether cleanup runs during one of the loop's awaits. The loop awaits
      twice per record (the call, then the pause before the next record) and
      once for the last record; `teardownAt` numbers the await during which
      the component unmounts, and larger values mean it stays mounted. */
  predicate Torn(m: nat, teardownAt: nat) {
    m > 0 && teardownAt < 2 * m - 1
  }

  /** How many resolution results reached the component's state. */
  function Published(m: nat, teardownAt: nat): nat {
    if Torn(m, teardownAt) then (teardownAt + 1) / 2 else m
  }

  /** How many calls the loop makes; a call in flight at teardown still happens. */
  function Calls(m: nat, teardownAt: nat): nat {
    if Torn(m, teardownAt) then teardownAt / 2 + 1 else m
  }

  lemma PublishedBounds(m: nat, teardownAt: nat)
    ensures Published(m, teardownAt) <= Calls(m, teardownAt) <= m
    ensures Torn(m, teardownAt) ==> Published(m, teardownAt) < m
  {
  }

  /** Queued record `k` misses the cache `start`. */
  ghost predicate Unresolved(start: StoredItem, needs: seq<Accommodation>, k: nat)
    requires k < |needs|
  {
    Lookup(start, needs[k].address).None?
  }

  /** The addresses of the records, in order. */
  function Addresses(accs: seq<Accommodation>): (r: seq<string>)
    ensures |r| == |accs| && forall i :: 0 <= i < |accs| ==> r[i] == accs[i].address
  {
    seq(|accs|, i requires 0 <= i < |accs| => accs[i].address)
  }

  /** The loop's calls so far are `geocodeAddress` on the first `|outcomes|`
      queued addresses, one after another from storage `start`, call `k`
      meeting `attempt(k)`: `outcomes` are their results, and the storage and
      the requests sent are what those calls leave. */
  ghost predicate Served(geo: Geocoder, start: StoredItem, requests0: seq<string>, needs: seq<Accommodation>,
                         attempt: nat -> Attempt, outcomes: seq<Option<Location>>)
    requires |outcomes| <= |needs|
    reads geo
  {
    var r := ResolveAll(geo.apiKey, start, Addresses(needs[..|outcomes|]), attempt, 0);
    outcomes == r.locations && geo.storage == r.storage && geo.requests == requests0 + r.sent
  }

  /** The call `geocodeAddress(needs[k].address)` of the loop: a hit answers
      from the cache and sends nothing; a miss without a key gives nothing;
      a miss with a key sends the region-qualified query and returns what the
      reply yields. The call extends the run of the earlier ones. */
  method Resolve(geo: Geocoder, needs: seq<Accommodation>, k: nat, attempt: nat -> Attempt,
                 ghost start: StoredItem, ghost requests0: seq<string>, ghost prev: seq<Option<Location>>)
    returns (location: Option<Location>)
    requires k < |needs| && |prev| == k
    requires Served(geo, start, requests0, needs, attempt, prev)
    modifies geo`storage, geo`requests
    ensures Served(geo, start, requests0, needs, attempt, prev + [location])
    ensures var hit := Lookup(old(geo.storage), needs[k].address);
      && (hit.Some? ==> location == hit && geo.requests == old(geo.requests))
      && (hit.None? && geo.apiKey == "" ==> location == None && geo.requests == old(geo.requests))
      && (hit.None? && geo.apiKey != "" ==>
            && location == Interpret(attempt(k).reply, attempt(k).now)
            && geo.requests == old(geo.requests) + [ServiceQuery(needs[k].address)])
  {
    ghost var r := ResolveAll(geo.apiKey, start, Addresses(needs[..k]), attempt, 0);
    QueuedStep(geo.apiKey, start, needs, attempt, k);
    location := geo.GeocodeAddress(needs[k].address, attempt(k));
    AppendAssoc(requests0, r.sent, Resolution(geo.apiKey, r.storage, needs[k].address, attempt(k)).sent);
  }

  /** The calls for the first `k + 1` queued records are those for the first
      `k`, then `geocodeAddress(needs[k].address)` from the storage they left. */
  lemma QueuedStep(apiKey: string, start: StoredItem, needs: seq<Accommodation>, attempt: nat -> Attempt, k: nat)
    requires k < |needs|
    ensures var r := ResolveAll(apiKey, start, Addresses(needs[..k]), attempt, 0);
            var s := Resolution(apiKey, r.storage, needs[k].address, attempt(k));
            ResolveAll(apiKey, start, Addresses(needs[..k + 1]), attempt, 0) ==
              Replay(r.locations + [s.location], s.storage, r.sent + s.sent)
  {
    var done := Addresses(needs[..k]);
    assert Addresses(needs[..k + 1]) == done + [needs[k].address];
    ReplayedSnoc(Resolver(apiKey, attempt), start, done, needs[k].address, 0);
  }

  /** The first queued record with its key: no earlier queued record shares
      its normalised address. */
  predicate FirstOfKey(needs: seq<Accommodation>, k: nat)
    requires k < |needs|
  {
    forall j :: 0 <= j < k ==> NormalizeAddress(needs[j].address) != NormalizeAddress(needs[k].address)
  }

  /** No two queued records share a normalised address. */
  predicate DistinctKeys(needs: seq<Accommodation>) {
    forall i, j :: 0 <= i < j < |needs| ==> NormalizeAddress(needs[i].address) != NormalizeAddress(needs[j].address)
  }

  /** The calls on the first `n` queued records, all of which miss the cache:
      cached addresses survive and at most one request goes out per call;
      without a key nothing is sent, stored or resolved; with one, the first
      record of each key gets what the reply to its own call yields, and with
      pairwise different keys exactly the queries of the records go out. */
  lemma QueuedRun(apiKey: string, start: StoredItem, needs: seq<Accommodation>, attempt: nat -> Attempt, n: nat)
    requires n <= |needs| && forall k :: 0 <= k < |needs| ==> Unresolved(start, needs, k)
    ensures var r := ResolveAll(apiKey, start, Addresses(needs[..n]), attempt, 0);
      && Keeps(start, r.storage) && |r.sent| <= n
      && (apiKey == "" ==> r.storage == start && r.sent == [] && forall j :: 0 <= j < n ==> r.locations[j].None?)
      && (apiKey != "" ==> forall k :: 0 <= k < n && FirstOfKey(needs, k) ==>
            r.locations[k] == Interpret(attempt(k).reply, attempt(k).now))
      && (apiKey != "" && DistinctKeys(needs) ==> r.sent == Queries(Addresses(needs[..n])))
  {
    var addresses := Addresses(needs[..n]);
    ResolvedKeeps(apiKey, start, addresses, attempt);
    ResolvedQuiet(apiKey, start, addresses, attempt);
    if apiKey == "" {
      forall j | 0 <= j < n ensures Lookup(start, addresses[j]).None? {
        assert Unresolved(start, needs, j);
      }
    } else {
      forall k | 0 <= k < n && FirstOfKey(needs, k)
        ensures ResolveAll(apiKey, start, addresses, attempt, 0).locations[k] == Interpret(attempt(k).reply, attempt(k).now)
      {
        assert Unresolved(start, needs, k);
        ResolvedFreshLocation(apiKey, start, addresses, attempt, k);
      }
      if DistinctKeys(needs) {
        forall j | 0 <= j < n ensures Lookup(start, addresses[j]).None? {
          assert Unresolved(start, needs, j);
        }
        ResolvedSent(apiKey, start, addresses, attempt);
      }
    }
  }

  /** One await of the loop: the cleanup runs during await number `teardownAt`. */
  method Await(isMounted: bool, awaits: nat, teardownAt: nat) returns (mounted: bool, next: nat)
    ensures next == awaits + 1
    ensures mounted == (isMounted && awaits != teardownAt)
  {
    mounted := isMounted && awaits != teardownAt;
    next := awaits + 1;
  }

  /** The fixed parameters of one run of the resolution loop. */
  datatype Run = Run(needs: seq<Accommodation>, teardownAt: nat, s0: GeocodingState,
                     completed0: nat, coordsMap0: map<string, Location>)

  /** The hook's React state: the published coordinates and progress. */
  class GeocodingHook {
    var geocodedCoords: map<string, Location>
    var state: GeocodingState

    /** The initial `useState` values. */
    constructor (originalAccommodations: seq<Accommodation>)
      ensures geocodedCoords == map[]
      ensures state == GeocodingState(true, 0, |originalAccommodations|, None, 0)
    {
      geocodedCoords := map[];
      state := GeocodingState(true, 0, |originalAccommodations|, None, 0);
    }

    /** What the hook returns on the enabled path. */
    function Result(list: seq<Accommodation>): (r: HookResult)
      reads this
      ensures r.accommodations == Merge(list, geocodedCoords)
      ensures r.geocodingState == state
      ensures r.venueCenter == VenueCenter(r.accommodations)
      ensures r.venueCenter.Some? <==> FirstVenue(list).Some?
    {
      MergeKeepsFirstVenue(list, geocodedCoords);
      var merged := Merge(list, geocodedCoords);
      HookResult(merged, state, VenueCenter(merged))
    }

    /** The effect's `geocodeAll`, run against `geo`; call k of the loop meets
        `attempt(k)`. Returns the call results in order. */
    method GeocodeAll(geo: Geocoder, list: seq<Accommodation>, attempt: nat -> Attempt, teardownAt: nat)
      returns (ghost outcomes: seq<Option<Location>>)
      modifies this`geocodedCoords, this`state, geo`storage, geo`requests
      ensures var needs := Uncached(list, CacheView(old(geo.storage)));
              var m := |needs|;
              var p := Published(m, teardownAt);
              var r := ResolveAll(geo.apiKey, old(geo.storage), Addresses(needs[..Calls(m, teardownAt)]), attempt, 0);
              && |outcomes| == Calls(m, teardownAt)
              && outcomes == r.locations && geo.storage == r.storage && geo.requests == old(geo.requests) + r.sent
              && geocodedCoords == Successes(CachedCoords(list, CacheView(old(geo.storage))), needs[..p], outcomes[..p])
              && state.progress == |list| - m + p
              && state.total == old(state.total)
              && state.failedCount == (if p == 0 then old(state.failedCount) else FailCount(outcomes[..p]))
              && state.isLoading == Torn(m, teardownAt)
              && state.error == (if m > 0 && !Torn(m, teardownAt) then FinalError(FailCount(outcomes))
                                 else old(state.error))
      ensures Keeps(old(geo.storage), geo.storage)
      ensures |geo.requests| <= |old(geo.requests)| + |outcomes|
      ensures geo.apiKey == "" ==>
                && geo.storage == old(geo.storage) && geo.requests == old(geo.requests)
                && forall j :: 0 <= j < |outcomes| ==> outcomes[j].None?
      ensures var needs := Uncached(list, CacheView(old(geo.storage)));
              geo.apiKey != "" ==> forall k :: 0 <= k < |outcomes| && FirstOfKey(needs, k) ==>
                outcomes[k] == Interpret(attempt(k).reply, attempt(k).now)
      ensures var needs := Uncached(list, CacheView(old(geo.storage)));
              geo.apiKey != "" && DistinctKeys(needs) ==>
                geo.requests == old(geo.requests) + Queries(Addresses(needs[..|outcomes|]))
    {
      ghost var start := geo.storage;
      var coordsMap, completed, needs := CachePrepass(geo, list);
      geocodedCoords := coordsMap;
      state := state.(progress := completed, isLoading := |needs| > 0);
      if |needs| == 0 {
        state := state.(isLoading := false);
        outcomes := [];
        assert Addresses(needs[..0]) == [];
        return;
      }
      forall k | 0 <= k < |needs|
        ensures Unresolved(start, needs, k)
      {
        UncachedMiss(list, CacheView(start), k);
      }
      var isMounted, failed;
      outcomes, isMounted, failed := ResolutionLoop(geo, list, needs, coordsMap, completed, attempt, teardownAt, start);
      QueuedRun(geo.apiKey, start, needs, attempt, |outcomes|);
      if isMounted {
        assert outcomes[..|needs|] == outcomes;
        state := state.(isLoading := false, error := FinalError(failed));
      }
    }

    /** The second pass of `geocodeAll`: one call per queued record, a pause
        between calls, and state published only while mounted. */
    method ResolutionLoop(geo: Geocoder, list: seq<Accommodation>, needs: seq<Accommodation>,
                          coordsMap0: map<string, Location>, completed0: nat,
                          attempt: nat -> Attempt, teardownAt: nat, ghost start: StoredItem)
      returns (ghost outcomes: seq<Option<Location>>, isMounted: bool, failed: nat)
      requires needs != []
      requires completed0 + |needs| == |list|
      requires geo.storage == start && geocodedCoords == coordsMap0 && state.progress == completed0
      modifies this`geocodedCoords, this`state, geo`storage, geo`requests
      ensures var m := |needs|;
              var p := Published(m, teardownAt);
              && |outcomes| == Calls(m, teardownAt)
              && (isMounted <==> !Torn(m, teardownAt))
              && (isMounted ==> failed == FailCount(outcomes))
              && geocodedCoords == Successes(coordsMap0, needs[..p], outcomes[..p])
              && state == old(state).(progress := completed0 + p,
                                      failedCount := if p == 0 then old(state.failedCount)
                                                     else FailCount(outcomes[..p]))
      ensures |outcomes| <= |needs| && Served(geo, start, old(geo.requests), needs, attempt, outcomes)
    {
      var run := Run(needs, teardownAt, state, completed0, coordsMap0);
      assert Addresses(needs[..0]) == [];
      var coordsMap := coordsMap0;
      var completed := completed0;
      isMounted, failed, outcomes := true, 0, [];
      var awaits: nat := 0;
      var k := 0;
      while k < |needs|
        invariant Counted(run, k, outcomes, isMounted, awaits, failed, completed, coordsMap)
        invariant awaits == if k < |needs| then 2 * k else 2 * k - 1
        invariant |outcomes| == k && Served(geo, start, old(geo.requests), needs, attempt, outcomes)
        decreases |needs| - k
      {
        if !isMounted {
          break;
        }
        ghost var prev := outcomes;
        var location;
        location, isMounted, awaits, failed, completed, coordsMap :=
          Turn(geo, run, k, attempt, start, old(geo.requests), prev, awaits, failed, completed, coordsMap);
        outcomes := prev + [location];
        k := k + 1;
      }
      LoopExit(run, k, outcomes, isMounted, awaits, failed, completed, coordsMap);
    }

    /** One turn of the loop: the call for queued record `k`, what the loop
        does with its result, and the pause before the next record. */
    method Turn(geo: Geocoder, run: Run, k: nat, attempt: nat -> Attempt, ghost start: StoredItem,
                ghost requests0: seq<string>, ghost prev: seq<Option<Location>>,
                awaits: nat, failed: nat, completed: nat, coordsMap: map<string, Location>)
      returns (location: Option<Location>, isMounted': bool, awaits': nat, failed': nat, completed': nat,
               coordsMap': map<string, Location>)
      requires k < |run.needs| && awaits == 2 * k
      requires Counted(run, k, prev, true, awaits, failed, completed, coordsMap)
      requires |prev| == k && Served(geo, start, requests0, run.needs, attempt, prev)
      modifies this`geocodedCoords, this`state, geo`storage, geo`requests
      ensures Counted(run, k + 1, prev + [location], isMounted', awaits', failed', completed', coordsMap')
      ensures awaits' == if k + 1 < |run.needs| then 2 * (k + 1) else 2 * (k + 1) - 1
      ensures Served(geo, start, requests0, run.needs, attempt, prev + [location])
    {
      location := Resolve(geo, run.needs, k, attempt, start, requests0, prev);
      isMounted', awaits', failed', completed', coordsMap' :=
        Record(run, k, location, prev, awaits, failed, completed, coordsMap);
      if k < |run.needs| - 1 {
        isMounted', awaits' := Pause(run, k + 1, prev + [location], isMounted', awaits', failed', completed', coordsMap');
      }
    }

    /** Where the loop stops: after every queued record, or at the first check
        after the teardown. */
    lemma LoopExit(run: Run, k: nat, outcomes: seq<Option<Location>>, isMounted: bool,
                   awaits: nat, failed: nat, completed: nat, coordsMap: map<string, Location>)
      requires run.needs != [] && Counted(run, k, outcomes, isMounted, awaits, failed, completed, coordsMap)
      requires awaits == if k < |run.needs| then 2 * k else 2 * k - 1
      requires k == |run.needs| || !isMounted
      ensures var m := |run.needs|;
              var p := Published(m, run.teardownAt);
              && |outcomes| == Calls(m, run.teardownAt)
              && (isMounted <==> !Torn(m, run.teardownAt))
              && (isMounted ==> failed == FailCount(outcomes))
              && geocodedCoords == Successes(run.coordsMap0, run.needs[..p], outcomes[..p])
              && state == run.s0.(progress := run.completed0 + p,
                                  failedCount := if p == 0 then run.s0.failedCount
                                                 else FailCount(outcomes[..p]))
    {
    }

    /** The loop's state after `k` queued records, with teardown during await
        `run.teardownAt`: results reach the component only while mounted. */
    ghost predicate Counted(run: Run, k: nat, outcomes: seq<Option<Location>>, isMounted: bool,
                            awaits: nat, failed: nat, completed: nat, coordsMap: map<string, Location>)
      reads this
    {
      && k <= |run.needs| && |outcomes| == k
      && (isMounted <==> awaits <= run.teardownAt)
      && (!isMounted ==> 0 < k && k == run.teardownAt / 2 + 1)
      && (isMounted ==> failed == FailCount(outcomes) && completed == run.completed0 + k)
      && var p := if isMounted then k else (run.teardownAt + 1) / 2;
         && p <= k
         && geocodedCoords == coordsMap == Successes(run.coordsMap0, run.needs[..p], outcomes[..p])
         && state == run.s0.(progress := run.completed0 + p,
                             failedCount := if p == 0 then run.s0.failedCount else FailCount(outcomes[..p]))
    }

    /** What the loop does with the result of the call for queued record `k`. */
    method Record(run: Run, k: nat, location: Option<Location>, ghost prev: seq<Option<Location>>,
                  awaits: nat, failed: nat, completed: nat, coordsMap: map<string, Location>)
      returns (isMounted': bool, awaits': nat, failed': nat, completed': nat, coordsMap': map<string, Location>)
      requires k < |run.needs| && awaits == 2 * k
      requires Counted(run, k, prev, true, awaits, failed, completed, coordsMap)
      modifies this`geocodedCoords, this`state
      ensures Counted(run, k + 1, prev + [location], isMounted', awaits', failed', completed', coordsMap')
      ensures awaits' == 2 * k + 1
    {
      var needs := run.needs;
      ghost var outcomes := prev + [location];
      assert outcomes[..k] == prev == prev[..k];
      assert outcomes[..k + 1] == outcomes;
      assert needs[..k] == needs[..k + 1][..k];
      isMounted', awaits' := Await(true, awaits, run.teardownAt);
      failed', completed', coordsMap' := failed, completed, coordsMap;
      if location.Some? && isMounted' {
        coordsMap' := coordsMap'[needs[k].id := location.value];
        geocodedCoords := coordsMap';
      } else {
        failed' := failed' + 1;
      }
      completed' := completed' + 1;
      if isMounted' {
        state := state.(progress := completed', failedCount := failed');
      }
    }

    /** The pause before the next queued record; results already published stay so. */
    method Pause(run: Run, k: nat, ghost outcomes: seq<Option<Location>>, isMounted: bool, awaits: nat,
                 failed: nat, completed: nat, coordsMap: map<string, Location>)
      returns (isMounted': bool, awaits': nat)
      requires 0 < k < |run.needs| && awaits == 2 * k - 1
      requires Counted(run, k, outcomes, isMounted, awaits, failed, completed, coordsMap)
      ensures Counted(run, k, outcomes, isMounted', awaits', failed, completed, coordsMap)
      ensures awaits' == 2 * k
    {
      isMounted', awaits' := Await(isMounted, awaits, run.teardownAt);
    }

    /** With the switch on but no credential, every record that misses the
        cache counts as a failure and the error names their number. */
    method GeocodeAllWithoutKey(geo: Geocoder, list: seq<Accommodation>, attempt: nat -> Attempt)
      requires geo.apiKey == "" && Uncached(list, CacheView(geo.storage)) != []
      modifies this`geocodedCoords, this`state, geo`storage, geo`requests
      ensures var m := |Uncached(list, CacheView(old(geo.storage)))|;
              && state.failedCount == m
              && state.error == Some(ErrorMessage(m))
              && state.progress == |list|
              && !state.isLoading
      ensures geo.storage == old(geo.storage) && geo.requests == old(geo.requests)
      ensures geocodedCoords == CachedCoords(list, CacheView(old(geo.storage)))
    {
      ghost var start := geo.storage;
      ghost var needs := Uncached(list, CacheView(start));
      var teardownAt := 2 * |Uncached(list, CacheView(geo.storage))|;
      ghost var outcomes := GeocodeAll(geo, list, attempt, teardownAt);
      assert outcomes[..|needs|] == outcomes && needs[..|needs|] == needs;
      NothingSucceeded(CachedCoords(list, CacheView(start)), needs, outcomes);
    }
  }
}

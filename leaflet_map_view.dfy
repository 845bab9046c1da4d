/** The OpenStreetMap view of the accommodations: the distance-to-car-time
    text, the map link table, marker icon sizing, the popup heading and the
    fly-to on selection. The Google view's copies of the car-time and link
    helpers are character-for-character the same and use these definitions. */
module LeafletMapView {
  import opened Wrappers
  import opened Strings
  import opened Types
  import opened MapShared

  // ---------------------------------------------------------------- car time

  /** The car-time text. The estimate branch rounds `2.5 * parseFloat(n)`
      minutes, a floating-point computation kept uninterpreted here: the
      model returns the numeral `n` the estimate is computed from. */
  datatype CarTime = Text(text: string) | KmEstimate(numeral: string)

  /** The fixed substring tests, in the order they run, with their texts. */
  const FIXED: seq<(string, string)> :=
    [("150m", "1min"), ("1.6km", "3-4min"), ("2.5km", "5-6min"), ("3km", "6-8min"), ("4km", "8-10min")]

  /** A character the numeral part of the pattern can consume. */
  predicate NumeralChar(c: char) {
    IsDigit(c) || c == '.'
  }

  function DotCount(t: string): (n: nat)
    ensures n <= |t|
  {
    if t == [] then 0 else DotCount(t[..|t| - 1]) + (if t[|t| - 1] == '.' then 1 else 0)
  }

  /** The strings `\d+\.?\d*` matches: a digit, then digits with at most one dot. */
  predicate IsNumeral(t: string) {
    |t| > 0 && IsDigit(t[0]) && (forall k :: 0 <= k < |t| ==> NumeralChar(t[k])) && DotCount(t) <= 1
  }

  /** `s[i..j] + "km"` is a match of `(\d+\.?\d*)km` starting at `i`. */
  predicate KmAt(s: string, i: nat, j: nat) {
    i < j && j + 2 <= |s| && IsNumeral(s[i..j]) && s[j..j + 2] == "km"
  }

  /** The end of the run of numeral characters starting at `i`. */
  function NumeralEnd(s: string, i: nat): (j: nat)
    requires i <= |s|
    ensures i <= j <= |s|
    ensures forall k :: i <= k < j ==> NumeralChar(s[k])
    ensures j < |s| ==> !NumeralChar(s[j])
    decreases |s| - i
  {
    if i < |s| && NumeralChar(s[i]) then NumeralEnd(s, i + 1) else i
  }

  /** A match starting at `i` can only end where the numeral run ends, since
      `'k'` is not a numeral character: the match at a position is unique. */
  lemma KmAtEnd(s: string, i: nat, j: nat)
    requires KmAt(s, i, j)
    ensures j == NumeralEnd(s, i)
  {
    var e := NumeralEnd(s, i);
    assert s[j] == s[j..j + 2][0] == 'k';
  }

  /** The end of the match starting at `i`, if there is one. */
  function MatchAt(s: string, i: nat): (r: Option<nat>)
    requires i <= |s|
    ensures r.Some? ==> KmAt(s, i, r.value)
    ensures r.None? ==> forall j :: !KmAt(s, i, j)
  {
    var j := NumeralEnd(s, i);
    if KmAt(s, i, j) then Some(j)
    else
      assert forall j' | KmAt(s, i, j') :: j' == j by {
        forall j' | KmAt(s, i, j') { KmAtEnd(s, i, j'); }
      }
      None
  }

  /** The regular expression's search from position `i`: the leftmost match,
      as (start, end of the numeral). */
  function KmMatch(s: string, i: nat): (r: Option<(nat, nat)>)
    requires i <= |s|
    ensures r.Some? ==> i <= r.value.0 && KmAt(s, r.value.0, r.value.1)
    ensures r.Some? ==> forall a, b :: i <= a < r.value.0 ==> !KmAt(s, a, b)
    ensures r.None? ==> forall a, b :: i <= a ==> !KmAt(s, a, b)
    decreases |s| - i
  {
    if i == |s| then None
    else match MatchAt(s, i)
      case Some(j) => Some((i, j))
      case None => KmMatch(s, i + 1)
  }

  /** A distance text to an approximate car time. */
  function GetCarTime(distance: string): (r: CarTime)
    ensures distance == "0m" ==> r == Text("0min")
    ensures r.KmEstimate? ==> exists i: nat, j: nat :: KmAt(distance, i, j) && r.numeral == distance[i..j]
    ensures r.KmEstimate? ==> IsNumeral(r.numeral)
  {
    if distance == "0m" then Text("0min")
    else if Contains(distance, "~150m") || Contains(distance, "150m") then Text("1min")
    else if Contains(distance, "~1.6km") || Contains(distance, "1.6km") then Text("3-4min")
    else if Contains(distance, "~2.5km") || Contains(distance, "2.5km") then Text("5-6min")
    else if Contains(distance, "~3km") || Contains(distance, "3km") then Text("6-8min")
    else if Contains(distance, "~4km") || Contains(distance, "4km") then Text("8-10min")
    else match KmMatch(distance, 0)
      case Some((i, j)) => KmEstimate(distance[i..j])
      case None => Text(distance)
  }

  /** Each test's `~` variant is subsumed by the plain one. */
  lemma TildeRedundant(distance: string, p: string)
    ensures Contains(distance, "~" + p) || Contains(distance, p) <==> Contains(distance, p)
  {
    if Contains(distance, "~" + p) {
      ContainsLongerPattern(distance, "~", p);
    }
  }

  /** The first fixed test a distance passes. */
  function FirstFixed(distance: string, k: nat): (r: Option<nat>)
    requires k <= |FIXED|
    ensures r.Some? ==> k <= r.value < |FIXED| && Contains(distance, FIXED[r.value].0)
    ensures r.Some? ==> forall k' :: k <= k' < r.value ==> !Contains(distance, FIXED[k'].0)
    ensures r.None? ==> forall k' :: k <= k' < |FIXED| ==> !Contains(distance, FIXED[k'].0)
    decreases |FIXED| - k
  {
    if k == |FIXED| then None
    else if Contains(distance, FIXED[k].0) then Some(k)
    else FirstFixed(distance, k + 1)
  }

  /** The if-chain is a first-match-wins scan of the table, after the exact
      `"0m"` test; without any fixed match it falls back to the pattern, and
      without that to the input itself. */
  lemma {:induction false} CarTimeIsTableScan(distance: string)
    requires distance != "0m"
    ensures FirstFixed(distance, 0).Some? ==> GetCarTime(distance) == Text(FIXED[FirstFixed(distance, 0).value].1)
    ensures FirstFixed(distance, 0).None? && KmMatch(distance, 0).None? ==> GetCarTime(distance) == Text(distance)
    ensures FirstFixed(distance, 0).None? ==> (GetCarTime(distance).KmEstimate? <==> exists i, j :: KmAt(distance, i, j))
  {
    TildeRedundant(distance, "150m");
    TildeRedundant(distance, "1.6km");
    TildeRedundant(distance, "2.5km");
    TildeRedundant(distance, "3km");
    TildeRedundant(distance, "4km");
    assert "~150m" == "~" + "150m" && "~1.6km" == "~" + "1.6km" && "~2.5km" == "~" + "2.5km";
    assert "~3km" == "~" + "3km" && "~4km" == "~" + "4km";
  }

  /** An estimate comes from the leftmost match of the pattern. */
  lemma CarTimeEstimateIsLeftmost(distance: string)
    requires GetCarTime(distance).KmEstimate?
    ensures KmMatch(distance, 0).Some?
    ensures var (i, j) := KmMatch(distance, 0).value;
            GetCarTime(distance) == KmEstimate(distance[i..j])
  {
  }

  /** Every character of a pattern a string contains occurs in the string. */
  lemma ContainedChar(s: string, p: string, q: nat)
    requires q < |p|
    ensures Contains(s, p) ==> p[q] in s
  {
    if Contains(s, p) {
      var i := ContainsWitness(s, p);
      assert s[i + q] == s[i..i + |p|][q] == p[q];
    }
  }

  /** A string lacking one of a pattern's characters does not contain it. */
  lemma LacksChar(s: string, p: string, q: nat)
    requires q < |p| && p[q] !in s
    ensures !Contains(s, p)
  {
    ContainedChar(s, p, q);
  }

  /** Example: a distance beyond the table whose text contains `"3km"`
      takes that pattern's time. */
  lemma CarTimeThirteenKm()
    ensures GetCarTime("13km") == Text("6-8min")
  {
    var s := "13km";
    ContainsAt(s, "3km", 1);
    LacksChar(s, "~150m", 0);
    LacksChar(s, "150m", 1);
    LacksChar(s, "~1.6km", 0);
    LacksChar(s, "1.6km", 1);
    LacksChar(s, "~2.5km", 0);
    LacksChar(s, "2.5km", 0);
  }

  /** Example: so does a decimal distance ending in `"3km"`. */
  lemma CarTimeFourPointThreeKm()
    ensures GetCarTime("4.3km") == Text("6-8min")
  {
    var s := "4.3km";
    ContainsAt(s, "3km", 2);
    LacksChar(s, "~150m", 0);
    LacksChar(s, "150m", 0);
    LacksChar(s, "~1.6km", 0);
    LacksChar(s, "1.6km", 0);
    LacksChar(s, "~2.5km", 0);
    LacksChar(s, "2.5km", 0);
  }

  /** Example: the pattern's leftmost match in `"~10km"` is the numeral `"10"`. */
  lemma KmMatchExample()
    ensures KmMatch("~10km", 0) == Some((1, 3))
  {
    var s := "~10km";
    assert MatchAt(s, 0).None?;
    assert NumeralEnd(s, 1) == 3;
    assert DotCount(s[1..3]) == 0;
    assert KmAt(s, 1, 3);
  }

  /** Example: a distance with no fixed pattern gets an estimate from its numeral. */
  lemma CarTimeEstimateExample()
    ensures GetCarTime("~10km") == KmEstimate("10")
  {
    var s := "~10km";
    LacksChar(s, "~150m", 2);
    LacksChar(s, "150m", 1);
    LacksChar(s, "~1.6km", 2);
    LacksChar(s, "1.6km", 1);
    LacksChar(s, "~2.5km", 1);
    LacksChar(s, "2.5km", 0);
    LacksChar(s, "~3km", 1);
    LacksChar(s, "3km", 0);
    LacksChar(s, "~4km", 1);
    LacksChar(s, "4km", 0);
    KmMatchExample();
    assert s[1..3] == "10";
  }

  // ------------------------------------------------------------ map links

  const SHORT_LINK_PREFIX: string := "https://maps.app.goo.gl/"
  const SEARCH_LINK_PREFIX: string := "https://www.google.com/maps?q="

  /** The short links of the nine known accommodations. */
  const LINKS: map<string, string> := map[
    "casa-da-lagoa" := SHORT_LINK_PREFIX + "PM4rvxds1K3YUgxz6",
    "hotel-hola" := SHORT_LINK_PREFIX + "NxTzHVKCvHqSMav36",
    "quintal-verde" := SHORT_LINK_PREFIX + "DYgLHosPyoANS42a8",
    "essencia-do-sol" := SHORT_LINK_PREFIX + "YvG6QCtE1hqD5oiv9",
    "lembranca" := SHORT_LINK_PREFIX + "JNKEQH4if16sXQda8",
    "dunas-do-sol" := SHORT_LINK_PREFIX + "xvPDZSi44L5u7jU89",
    "santarina" := SHORT_LINK_PREFIX + "8uo5jH886jrzX2nz5",
    "jardim-da-lagoa" := SHORT_LINK_PREFIX + "vUfYdy4HQSQX5hFK7",
    "haute-haus" := SHORT_LINK_PREFIX + "FePoCexAFYUSDUXY9"]

  /** Every table link is a short link. */
  lemma LinksAreShort(id: string)
    requires id in LINKS
    ensures StartsWith(LINKS[id], SHORT_LINK_PREFIX) && |LINKS[id]| == |SHORT_LINK_PREFIX| + 17
  {
  }

  /** The link a popup's "Google Maps" button opens. */
  function GetGoogleMapsLink(id: string): (r: string)
    ensures id in LINKS ==> r == LINKS[id] && StartsWith(r, SHORT_LINK_PREFIX)
    ensures id !in LINKS ==> r == SEARCH_LINK_PREFIX + id
  {
    if id in LINKS && LINKS[id] != "" then LINKS[id] else SEARCH_LINK_PREFIX + id
  }

  /** Short links and search links differ right after `"https://"`. */
  lemma LinkKind(id: string)
    ensures |GetGoogleMapsLink(id)| > 8
    ensures GetGoogleMapsLink(id)[8] == if id in LINKS then 'm' else 'w'
  {
    if id in LINKS {
      LinksAreShort(id);
      assert GetGoogleMapsLink(id)[8] == SHORT_LINK_PREFIX[8];
    } else {
      assert GetGoogleMapsLink(id)[8] == SEARCH_LINK_PREFIX[8];
    }
  }

  /** No two table entries share a link. */
  lemma LinksDistinct(a: string, b: string)
    requires a in LINKS && b in LINKS && a != b
    ensures LINKS[a] != LINKS[b]
  {
    var n := |SHORT_LINK_PREFIX|;
    assert LINKS[a][n..] != LINKS[b][n..];
  }

  /** Different accommodations get different links. */
  lemma GoogleMapsLinkInjective(a: string, b: string)
    requires GetGoogleMapsLink(a) == GetGoogleMapsLink(b)
    ensures a == b
  {
    var n := |SEARCH_LINK_PREFIX|;
    if a in LINKS && b in LINKS {
      if a != b { LinksDistinct(a, b); }
    } else if a !in LINKS && b !in LINKS {
      assert GetGoogleMapsLink(a) == SEARCH_LINK_PREFIX + a && GetGoogleMapsLink(b) == SEARCH_LINK_PREFIX + b;
      assert (SEARCH_LINK_PREFIX + a)[n..] == a && (SEARCH_LINK_PREFIX + b)[n..] == b;
    } else {
      LinkKind(a);
      LinkKind(b);
      assert false;
    }
  }

  // ---------------------------------------------------------------- markers

  datatype Point = Point(x: int, y: int)

  /** A marker icon: the heart for the venue, the star otherwise, with its
      size, the anchor pinned to the position and the popup's anchor. */
  datatype MarkerIcon = MarkerIcon(heart: bool, size: nat, iconAnchor: Point, popupAnchor: Point)

  const VENUE_MARKER_SIZE: nat := 36
  const MARKER_SIZE: nat := 28

  function CreateMarkerIcon(isVenue: bool): (icon: MarkerIcon)
    ensures icon.heart == isVenue
    ensures icon.size == if isVenue then VENUE_MARKER_SIZE else MARKER_SIZE
    ensures icon.iconAnchor.x == icon.iconAnchor.y && 2 * icon.iconAnchor.x == icon.size
    ensures icon.popupAnchor == Point(0, -icon.iconAnchor.y)
  {
    var size := if isVenue then VENUE_MARKER_SIZE else MARKER_SIZE;
    MarkerIcon(isVenue, size, Point(size / 2, size / 2), Point(0, -(size / 2)))
  }

  // ----------------------------------------------------------------- popups

  /** What `rating && badge` renders: nothing for a missing rating, a stray
      `0` for a zero rating, the badge otherwise. */
  datatype RatingBadge = NoBadge | StrayZero | Stars(rating: real)

  function Badge(rating: Option<real>): (b: RatingBadge)
    ensures b == NoBadge <==> rating.None?
    ensures b == StrayZero <==> rating == Some(0.0)
    ensures b.Stars? ==> rating == Some(b.rating) && b.rating != 0.0
  {
    match rating
    case None => NoBadge
    case Some(x) => if x == 0.0 then StrayZero else Stars(x)
  }

  /** The bold title of a popup. */
  datatype Heading = Heading(name: string, badge: RatingBadge, carTime: Option<CarTime>)

  /** Popup content: title, address, the booking button when there is a
      booking URL, and the map link. */
  datatype Popup = Popup(heading: Heading, address: string, bookingUrl: Option<string>, mapsLink: string)

  /** The venue's own record, whose popup shows neither rating nor car time. */
  const VENUE_ID: string := "haute-haus"

  /** The booking button appears only for a non-empty URL. */
  function BookingButton(url: string): (r: Option<string>)
    ensures r.Some? <==> url != ""
    ensures r.Some? ==> r.value == url
  {
    if url != "" then Some(url) else None
  }

  function LeafletPopup(a: Accommodation): (p: Popup)
    ensures p.heading.name == a.name && p.address == a.address
    ensures p.heading.carTime.None? <==> a.id == VENUE_ID
    ensures a.id == VENUE_ID ==> p.heading.badge == NoBadge
    ensures a.id != VENUE_ID ==>
              p.heading.badge == Badge(a.rating) && p.heading.carTime == Some(GetCarTime(a.distanceToVenue))
    ensures p.bookingUrl == BookingButton(a.bookingUrl) && p.mapsLink == GetGoogleMapsLink(a.id)
  {
    var heading :=
      if a.id == VENUE_ID then Heading(a.name, NoBadge, None)
      else Heading(a.name, Badge(a.rating), Some(GetCarTime(a.distanceToVenue)));
    Popup(heading, a.address, BookingButton(a.bookingUrl), GetGoogleMapsLink(a.id))
  }

  /** A marker; a click on it selects `id`. */
  datatype Marker = Marker(id: string, position: LatLng, icon: MarkerIcon, popup: Popup)

  /** One marker per accommodation, in order. */
  function Markers(accommodations: seq<Accommodation>): (ms: seq<Marker>)
    ensures |ms| == |accommodations|
    ensures forall i :: 0 <= i < |ms| ==>
              && ms[i].id == accommodations[i].id
              && ms[i].position == Position(accommodations[i])
              && ms[i].icon == CreateMarkerIcon(accommodations[i].isVenue)
              && ms[i].popup == LeafletPopup(accommodations[i])
  {
    seq(|accommodations|, i requires 0 <= i < |accommodations| =>
      var a := accommodations[i];
      Marker(a.id, Position(a), CreateMarkerIcon(a.isVenue), LeafletPopup(a)))
  }

  // ------------------------------------------------------------- selection

  /** The index of the first accommodation with this id, as `find` returns it. */
  function FirstWithId(accommodations: seq<Accommodation>, id: string): (r: Option<nat>)
    ensures r.Some? ==> r.value < |accommodations| && accommodations[r.value].id == id
    ensures r.Some? ==> forall k :: 0 <= k < r.value ==> accommodations[k].id != id
    ensures r.None? ==> forall k :: 0 <= k < |accommodations| ==> accommodations[k].id != id
  {
    if accommodations == [] then None
    else if accommodations[0].id == id then Some(0)
    else match FirstWithId(accommodations[1..], id)
      case Some(k) => Some(k + 1)
      case None => None
  }

  const FLY_TO_ZOOM: nat := 16

  datatype FlyTarget = FlyTarget(center: LatLng, zoom: nat)

  /** Where the map flies for the selection: only for a non-empty selected id
      that some accommodation has, to the first such one. */
  function FlyTo(accommodations: seq<Accommodation>, selectedId: Option<string>): (r: Option<FlyTarget>)
    ensures r.Some? <==> && selectedId.Some? && selectedId.value != ""
                         && exists k :: 0 <= k < |accommodations| && accommodations[k].id == selectedId.value
    ensures r.Some? ==> r.value.zoom == FLY_TO_ZOOM
    ensures r.Some? ==> exists k :: && 0 <= k < |accommodations| && accommodations[k].id == selectedId.value
                                    && r.value.center == Position(accommodations[k])
                                    && forall k' :: 0 <= k' < k ==> accommodations[k'].id != selectedId.value
  {
    if selectedId.None? || selectedId.value == "" then None
    else match FirstWithId(accommodations, selectedId.value)
      case Some(k) => Some(FlyTarget(Position(accommodations[k]), FLY_TO_ZOOM))
      case None => None
  }

  /** With distinct ids, clicking marker `k` flies the map to that marker. */
  lemma ClickFliesToMarker(accommodations: seq<Accommodation>, k: nat)
    requires k < |accommodations| && accommodations[k].id != ""
    requires forall a, b :: 0 <= a < b < |accommodations| ==> accommodations[a].id != accommodations[b].id
    ensures FlyTo(accommodations, Some(Markers(accommodations)[k].id))
            == Some(FlyTarget(Markers(accommodations)[k].position, FLY_TO_ZOOM))
  {
    var f := FirstWithId(accommodations, accommodations[k].id);
    assert f == Some(k);
  }

  /** The rendered Leaflet map. */
  datatype LeafletMap = LeafletMap(center: LatLng, zoom: nat, flyTo: Option<FlyTarget>, markers: seq<Marker>)

  function Render(props: MapViewProps): (m: LeafletMap)
    ensures m.center == props.center && m.zoom == DEFAULT_ZOOM
    ensures m.flyTo == FlyTo(props.accommodations, props.selectedId)
    ensures m.markers == Markers(props.accommodations)
  {
    LeafletMap(props.center, DEFAULT_ZOOM, FlyTo(props.accommodations, props.selectedId), Markers(props.accommodations))
  }
}

/** The Google Maps view: the same car-time and link helpers as the Leaflet
    view, fixed-size marker icons, an info window that follows the last
    clicked marker, and a placeholder when no API key is configured. */
module GoogleMapsView {
  import opened Wrappers
  import opened Types
  import opened MapShared
  import opened LeafletMapView

  /** `VITE_GOOGLE_MAPS_API_KEY || ''` */
  function ApiKey(env: Option<string>): (key: string)
    ensures env.Some? ==> key == env.value
    ensures env.None? ==> key == ""
  {
    env.GetOr("")
  }

  /** An icon given as an image scaled to `scaledSize` and pinned at `anchor`. */
  datatype GoogleIcon = GoogleIcon(heart: bool, scaledSize: nat, anchor: Point)

  /** The icon of a marker: the heart at 36 pixels for the venue, the star
      at 28 otherwise, pinned at its centre — the Leaflet sizes and anchors. */
  function GoogleMarkerIcon(isVenue: bool): (icon: GoogleIcon)
    ensures icon.heart == CreateMarkerIcon(isVenue).heart
    ensures icon.scaledSize == CreateMarkerIcon(isVenue).size
    ensures icon.anchor == CreateMarkerIcon(isVenue).iconAnchor
  {
    if isVenue then GoogleIcon(true, 36, Point(18, 18)) else GoogleIcon(false, 28, Point(14, 14))
  }

  /** The content of the info window: unlike the Leaflet popup, the car time
      is always shown, for the venue too. */
  function InfoContent(a: Accommodation): (p: Popup)
    ensures p.heading == Heading(a.name, Badge(a.rating), Some(GetCarTime(a.distanceToVenue)))
    ensures a.id != VENUE_ID ==> p == LeafletPopup(a)
    ensures a.id == VENUE_ID ==> p.heading.carTime.Some? && LeafletPopup(a).heading.carTime.None?
    ensures p.address == a.address && p.bookingUrl == BookingButton(a.bookingUrl) && p.mapsLink == GetGoogleMapsLink(a.id)
  {
    Popup(Heading(a.name, Badge(a.rating), Some(GetCarTime(a.distanceToVenue))),
          a.address, BookingButton(a.bookingUrl), GetGoogleMapsLink(a.id))
  }

  /** A marker; a click on it opens the info window for `accommodation`. */
  datatype GoogleMarker = GoogleMarker(accommodation: Accommodation, position: LatLng, icon: GoogleIcon, title: string)

  /** The info window is offset 36 pixels above its position. */
  const INFO_WINDOW_OFFSET: Point := Point(0, -36)

  datatype InfoWindow = InfoWindow(position: LatLng, pixelOffset: Point, content: Popup)

  /** What the view renders. */
  datatype GoogleRender =
    | Placeholder
    | GoogleMap(defaultCenter: LatLng, defaultZoom: nat, markers: seq<GoogleMarker>, infoWindow: Option<InfoWindow>)

  function GoogleMarkers(accommodations: seq<Accommodation>): (ms: seq<GoogleMarker>)
    ensures |ms| == |accommodations|
    ensures forall i :: 0 <= i < |ms| ==>
              && ms[i].accommodation == accommodations[i]
              && ms[i].position == Position(accommodations[i])
              && ms[i].icon == GoogleMarkerIcon(accommodations[i].isVenue)
              && ms[i].title == accommodations[i].name
  {
    seq(|accommodations|, i requires 0 <= i < |accommodations| =>
      var a := accommodations[i];
      GoogleMarker(a, Position(a), GoogleMarkerIcon(a.isVenue), a.name))
  }

  function InfoWindowFor(a: Accommodation): (w: InfoWindow)
    ensures w.position == Position(a) && w.pixelOffset == INFO_WINDOW_OFFSET
    ensures w.content == InfoContent(a)
  {
    InfoWindow(Position(a), INFO_WINDOW_OFFSET, InfoContent(a))
  }

  class GoogleMapsView {
    const apiKey: string
    /** The accommodation whose info window is open, if any. */
    var infoWindowAccom: Option<Accommodation>

    constructor(env: Option<string>)
      ensures apiKey == ApiKey(env) && infoWindowAccom == None
    {
      apiKey := ApiKey(env);
      infoWindowAccom := None;
    }

    /** The rendering for the given props: a placeholder without a key, the
        map with one marker per accommodation otherwise. */
    function Render(props: MapViewProps): (r: GoogleRender)
      reads this
      ensures r.Placeholder? <==> apiKey == ""
      ensures r.GoogleMap? ==>
                && r.defaultCenter == props.center && r.defaultZoom == DEFAULT_ZOOM
                && r.markers == GoogleMarkers(props.accommodations)
                && (r.infoWindow.Some? <==> infoWindowAccom.Some?)
                && (infoWindowAccom.Some? ==> r.infoWindow == Some(InfoWindowFor(infoWindowAccom.value)))
    {
      if apiKey == "" then Placeholder
      else
        var window := match infoWindowAccom
          case Some(a) => Some(InfoWindowFor(a))
          case None => None;
        GoogleMap(props.center, DEFAULT_ZOOM, GoogleMarkers(props.accommodations), window)
    }

    /** Opens the clicked marker's info window; returns the id handed to the
        selection callback. */
    method HandleMarkerClick(accom: Accommodation) returns (selected: Option<string>)
      modifies this`infoWindowAccom
      ensures infoWindowAccom == Some(accom)
      ensures selected == Some(accom.id)
    {
      infoWindowAccom := Some(accom);
      selected := Some(accom.id);
    }

    /** Closes the info window; the selection callback receives `null`. */
    method HandleInfoWindowClose() returns (selected: Option<string>)
      modifies this`infoWindowAccom
      ensures infoWindowAccom == None
      ensures selected == None
    {
      infoWindowAccom := None;
      selected := None;
    }
  }

  /** The selected id does not change what the Google view shows: the map is
      not re-centred and the info window follows clicks only. */
  lemma RenderIgnoresSelection(view: GoogleMapsView, props: MapViewProps, selectedId: Option<string>)
    ensures view.Render(props) == view.Render(props.(selectedId := selectedId))
  {
  }

  /** Without a key nothing but the placeholder is shown, whatever the props. */
  lemma NoKeyNoMarkers(view: GoogleMapsView, props: MapViewProps)
    requires view.apiKey == ""
    ensures view.Render(props) == Placeholder
  {
  }

  /** The marker icons of the two views have the same sizes and anchors. */
  lemma IconsMatchLeaflet(accommodations: seq<Accommodation>, i: nat)
    requires i < |accommodations|
    ensures GoogleMarkers(accommodations)[i].icon.scaledSize == LeafletMapView.Markers(accommodations)[i].icon.size
    ensures GoogleMarkers(accommodations)[i].icon.anchor == LeafletMapView.Markers(accommodations)[i].icon.iconAnchor
    ensures GoogleMarkers(accommodations)[i].icon.scaledSize == if accommodations[i].isVenue then 36 else 28
  {
  }
}

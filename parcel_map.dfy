/** The parcel map: where the map is centred and how far it is zoomed, the route drawn as
    points and a dashed line, one marker per route point coloured by its status, and the
    loading and error views that replace the map.

    Coordinates are only passed along, never computed on; a marker's icon is its colour. */
module ParcelMap {
  import opened Wrappers
  import opened CourierApi

  /** Manila, the centre before any data arrives. */
  const DefaultCenter: LatLng := LatLng(14.6091, 121.0223)
  const DefaultZoom: nat := 12
  const LiveZoom: nat := 15
  const RouteZoom: nat := 13

  const DefaultMarkerColor: string := "#cccccc"
  const LiveMarkerColor: string := "#ff4757"

  /** The colour of the icon the status table gives `status`, if any. */
  function StatusIcon(status: string): Option<string> {
    if status == "Picked up" then Some("#ff6b6b")
    else if status == "In transit" then Some("#4ecdc4")
    else if status == "Approaching destination" then Some("#45b7d1")
    else if status == "Out for delivery" then Some("#96ceb4")
    else if status == "Delivered" then Some("#feca57")
    else None
  }

  const IconStatuses: seq<string> := ["Picked up", "In transit", "Approaching destination", "Out for delivery", "Delivered"]

  /** A route marker's colour: the table's, or grey for a status it does not list. */
  function MarkerColor(status: string): (color: string)
    ensures status in IconStatuses ==> color != DefaultMarkerColor && Some(color) == StatusIcon(status)
    ensures status !in IconStatuses ==> color == DefaultMarkerColor
  {
    match StatusIcon(status)
    case Some(c) => c
    case None => DefaultMarkerColor
  }

  /** Every status the mock data reports has its own icon. */
  lemma MockStatusesHaveIcons()
    ensures forall i :: 0 <= i < |MockStatuses| ==> MarkerColor(MockStatuses[i]) != DefaultMarkerColor
  {
    assert forall i :: 0 <= i < |MockStatuses| ==> MockStatuses[i] == IconStatuses[i];
  }

  /** Where the effect moves the map for the given props, from `center` and `zoom`: onto the
      live location at zoom 15, else onto the last route point at zoom 13, else nowhere. */
  function Focus(center: LatLng, zoom: nat, trackingData: Option<Snapshot>, live: Option<LiveLocation>): (r: (LatLng, nat))
    ensures live.Some? ==> r == (LatLng(live.value.lat, live.value.lng), LiveZoom)
    ensures live.None? && trackingData.Some? && |trackingData.value.route| > 0 ==>
      var last := trackingData.value.route[|trackingData.value.route| - 1];
      r == (LatLng(last.lat, last.lng), RouteZoom)
    ensures live.None? && (trackingData.None? || trackingData.value.route == []) ==> r == (center, zoom)
  {
    if live.Some? then (LatLng(live.value.lat, live.value.lng), LiveZoom)
    else if trackingData.Some? && |trackingData.value.route| > 0 then
      var route := trackingData.value.route;
      (LatLng(route[|route| - 1].lat, route[|route| - 1].lng), RouteZoom)
    else (center, zoom)
  }

  /** Whatever came before, the map ends at one of the three zooms, and only the default one
      survives an effect run once data has arrived that is not a live location. */
  lemma FocusZooms(center: LatLng, zoom: nat, trackingData: Option<Snapshot>, live: Option<LiveLocation>)
    requires zoom in {DefaultZoom, LiveZoom, RouteZoom}
    ensures Focus(center, zoom, trackingData, live).1 in {DefaultZoom, LiveZoom, RouteZoom}
    ensures Focus(center, zoom, trackingData, live).1 == zoom <==>
      || (live.Some? && zoom == LiveZoom)
      || (live.None? && trackingData.Some? && |trackingData.value.route| > 0 && zoom == RouteZoom)
      || (live.None? && (trackingData.None? || trackingData.value.route == []))
  {
  }

  /** `routePoints`: the route as coordinate pairs, in order; none without data. */
  function RoutePoints(trackingData: Option<Snapshot>): (points: seq<LatLng>)
    ensures trackingData.None? ==> points == []
    ensures trackingData.Some? ==>
      && |points| == |trackingData.value.route|
      && (forall i :: 0 <= i < |points| ==> points[i] == LatLng(trackingData.value.route[i].lat, trackingData.value.route[i].lng))
  {
    match trackingData
    case None => []
    case Some(data) => seq(|data.route|, i requires 0 <= i < |data.route| => LatLng(data.route[i].lat, data.route[i].lng))
  }

  datatype Marker = Marker(position: LatLng, color: string, status: string, timestamp: int)

  /** The route markers: one per route point, at its coordinates, coloured and labelled by its
      status. */
  function RouteMarkers(trackingData: Option<Snapshot>): (markers: seq<Marker>)
    ensures |markers| == |RoutePoints(trackingData)|
    ensures forall i :: 0 <= i < |markers| ==>
      && markers[i].position == RoutePoints(trackingData)[i]
      && markers[i].color == MarkerColor(trackingData.value.route[i].status)
      && markers[i].status == trackingData.value.route[i].status
      && markers[i].timestamp == trackingData.value.route[i].timestamp
  {
    match trackingData
    case None => []
    case Some(data) =>
      seq(|data.route|, i requires 0 <= i < |data.route| =>
        Marker(LatLng(data.route[i].lat, data.route[i].lng), MarkerColor(data.route[i].status),
               data.route[i].status, data.route[i].timestamp))
  }

  /** The marker of the live location, in its own red. */
  function LiveMarker(l: LiveLocation): (m: Marker)
    ensures m.position == LatLng(l.lat, l.lng) && m.color == LiveMarkerColor && m.color != DefaultMarkerColor
    ensures m.timestamp == l.timestamp
  {
    Marker(LatLng(l.lat, l.lng), LiveMarkerColor, "Current Location", l.timestamp)
  }

  /** The status panel under the map. */
  datatype StatusPanel = StatusPanel(status: string, estimatedDelivery: string, lastUpdate: string)

  datatype View =
    | LoadingMap
    | MapError(message: string)
    | MapShown(center: LatLng, zoom: nat, polyline: Option<seq<LatLng>>, routeMarkers: seq<Marker>,
               liveMarker: Option<Marker>, panel: Option<StatusPanel>)

  /** What the component renders with the given props at the current centre and zoom. */
  function Render(trackingData: Option<Snapshot>, live: Option<LiveLocation>, isLoading: bool,
                  error: Option<string>, center: LatLng, zoom: nat): (v: View)
    ensures isLoading ==> v == LoadingMap
    ensures !isLoading && error.Some? && error.value != "" ==> v == MapError(error.value)
    ensures v.MapShown? <==> !isLoading && (error.None? || error.value == "")
    ensures v.MapShown? ==>
      && v.center == center && v.zoom == zoom
      && (v.polyline.Some? <==> |RoutePoints(trackingData)| > 1)
      && (v.polyline.Some? ==> v.polyline.value == RoutePoints(trackingData))
      && v.routeMarkers == RouteMarkers(trackingData)
      && (v.liveMarker.Some? <==> live.Some?)
      && (live.Some? ==> v.liveMarker == Some(LiveMarker(live.value)))
      && (v.panel.Some? <==> trackingData.Some?)
  {
    if isLoading then LoadingMap
    else if error.Some? && error.value != "" then MapError(error.value)
    else
      var points := RoutePoints(trackingData);
      MapShown(center, zoom,
               if |points| > 1 then Some(points) else None,
               RouteMarkers(trackingData),
               match live case Some(l) => Some(LiveMarker(l)) case None => None,
               match trackingData
               case Some(d) => Some(StatusPanel(d.status, d.estimatedDelivery, d.lastUpdate))
               case None => None)
  }

  /** The mock snapshot is always drawn as a line of four points, ending where the map is
      centred when no live location has arrived. */
  lemma MockSnapshotDrawsRoute(courier: Option<string>, trackingNumber: string, now: int, isoNow: string,
                               center: LatLng, zoom: nat)
    ensures var data := Some(MockTrackingData(courier, trackingNumber, now, isoNow));
      var focus := Focus(center, zoom, data, None);
      var v := Render(data, None, false, None, focus.0, focus.1);
      && v.MapShown? && v.polyline.Some? && |v.polyline.value| == 4
      && v.center == v.polyline.value[3] && v.zoom == RouteZoom
      && (forall i :: 0 <= i < 4 ==> v.routeMarkers[i].color != DefaultMarkerColor)
  {
    var data := MockTrackingData(courier, trackingNumber, now, isoNow);
    MockSnapshotShape(courier, trackingNumber, now, isoNow);
    MockStatusesHaveIcons();
    assert forall i :: 0 <= i < 4 ==> data.route[i].status == MockStatuses[i];
  }

  /** Once the effect has run with a live location, the map shown is centred on that
      location at zoom 15, with the live marker on the centre. */
  lemma LiveLocationCentresMap(center: LatLng, zoom: nat, trackingData: Option<Snapshot>, l: LiveLocation)
    ensures var focus := Focus(center, zoom, trackingData, Some(l));
      var v := Render(trackingData, Some(l), false, None, focus.0, focus.1);
      && v.MapShown? && v.center == LatLng(l.lat, l.lng) && v.zoom == LiveZoom
      && v.liveMarker == Some(LiveMarker(l)) && v.liveMarker.value.position == v.center
  {
  }

  /** The map's own state: the centre and zoom the effect last chose. */
  class MapView {
    var mapCenter: LatLng
    var mapZoom: nat

    constructor ()
      ensures mapCenter == DefaultCenter && mapZoom == DefaultZoom
    {
      mapCenter := DefaultCenter;
      mapZoom := DefaultZoom;
    }

    /** The effect that runs when `trackingData` or `realTimeLocation` change. */
    method OnPropsChange(trackingData: Option<Snapshot>, live: Option<LiveLocation>)
      modifies this
      ensures (mapCenter, mapZoom) == Focus(old(mapCenter), old(mapZoom), trackingData, live)
    {
      if live.Some? {
        mapCenter := LatLng(live.value.lat, live.value.lng);
        mapZoom := LiveZoom;
      } else if trackingData.Some? && |trackingData.value.route| > 0 {
        var route := trackingData.value.route;
        mapCenter := LatLng(route[|route| - 1].lat, route[|route| - 1].lng);
        mapZoom := RouteZoom;
      }
    }

    /** The component's output: the loading and error views replace the map, and a map that
        is shown sits at the centre and zoom the effect last chose. */
    function View(trackingData: Option<Snapshot>, live: Option<LiveLocation>, isLoading: bool, error: Option<string>): (v: View)
      reads this
      ensures isLoading ==> v == LoadingMap
      ensures !isLoading && error.Some? && error.value != "" ==> v == MapError(error.value)
      ensures v.MapShown? <==> !isLoading && (error.None? || error.value == "")
      ensures v.MapShown? ==> v.center == mapCenter && v.zoom == mapZoom
      ensures v.MapShown? ==> v.routeMarkers == RouteMarkers(trackingData) && (v.liveMarker.Some? <==> live.Some?)
    {
      Render(trackingData, live, isLoading, error, mapCenter, mapZoom)
    }
  }
}

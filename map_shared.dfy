/** Configuration shared by the two map views: the provider switch, the
    default centre and zoom, and the per-cluster colour and label tables. */
module MapShared {
  import opened Types
  import opened Wrappers

  datatype MapProvider = Google | Leaflet

  const MAP_PROVIDER: MapProvider := Google

  /** The wedding venue's coordinates. */
  const VENUE_CENTER: LatLng := LatLng(-27.5954, -48.4580)

  const DEFAULT_ZOOM: nat := 14

  /** The clusters in the order the colour table lists them. */
  const CLUSTERS: seq<Cluster> := [Venue, OsniOrtiga, Centro, Rendeiras, Retiro]

  const CLUSTER_COLORS: map<Cluster, string> := map[
    Venue := "#d4a574",
    OsniOrtiga := "#22c55e",
    Centro := "#3b82f6",
    Rendeiras := "#f97316",
    Retiro := "#8b5cf6"]

  const CLUSTER_LABELS: map<Cluster, string> := map[
    Venue := "",
    OsniOrtiga := "",
    Centro := "",
    Rendeiras := "",
    Retiro := "Retiro / Paz"]

  predicate IsHexDigit(c: char) {
    '0' <= c <= '9' || 'a' <= c <= 'f'
  }

  /** A CSS colour written `#rrggbb`. */
  predicate IsHexColour(s: string) {
    |s| == 7 && s[0] == '#' && forall i :: 1 <= i < 7 ==> IsHexDigit(s[i])
  }

  /** Both tables have an entry for every cluster, and `CLUSTERS` lists each
      cluster exactly once. */
  lemma TablesAreTotal(c: Cluster)
    ensures c in CLUSTER_COLORS && c in CLUSTER_LABELS
    ensures c in CLUSTERS
    ensures |CLUSTERS| == 5 && forall i, j :: 0 <= i < j < |CLUSTERS| ==> CLUSTERS[i] != CLUSTERS[j]
  {
  }

  /** The colour of a cluster's markers and legend dot. */
  function GetMarkerColor(cluster: Cluster): (r: string)
    ensures IsHexColour(r)
    ensures cluster in CLUSTER_COLORS && r == CLUSTER_COLORS[cluster]
  {
    TablesAreTotal(cluster);
    CLUSTER_COLORS[cluster]
  }

  /** No two clusters share a colour. */
  lemma MarkerColorsDistinct(a: Cluster, b: Cluster)
    requires a != b
    ensures GetMarkerColor(a) != GetMarkerColor(b)
  {
    var i :| 1 <= i < 7 && GetMarkerColor(a)[i] != GetMarkerColor(b)[i];
  }

  /** The legend caption of a cluster. */
  function GetClusterLabel(cluster: Cluster): (r: string)
    ensures cluster in CLUSTER_LABELS && r == CLUSTER_LABELS[cluster]
  {
    TablesAreTotal(cluster);
    CLUSTER_LABELS[cluster]
  }

  /** Only the retreat cluster has a caption. */
  lemma ClusterLabels(cluster: Cluster)
    ensures GetClusterLabel(cluster) != "" <==> cluster == Retiro
    ensures cluster == Retiro ==> GetClusterLabel(cluster) == "Retiro / Paz"
  {
  }

  /** The props each map view receives. The selection callback is not a
      value here: the views return the argument they would pass to it. */
  datatype MapViewProps = MapViewProps(
    accommodations: seq<Accommodation>,
    selectedId: Option<string>,
    center: LatLng)
}

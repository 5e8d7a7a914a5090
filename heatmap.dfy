/** The incident map: one circle marker per report with usable coordinates. */
module Heatmap {
  import opened Common
  import opened ReportModel
  import Dashboard

  /** A report is plotted when it has a location whose latitude is not 0; the longitude is not looked at. */
  predicate HasGps(r: Report)
  {
    r.location.Some? && r.location.value.lat != 0.0
  }

  /** The stroke colour: red for priority reports. */
  function StrokeColor(r: Report): (c: string)
    ensures r.isPriority <==> c == "red"
    ensures !r.isPriority <==> c == "#3b82f6"
  {
    if r.isPriority then "red" else "#3b82f6"
  }

  function FillColor(r: Report): (c: string)
    ensures r.isPriority <==> c == "#ef4444"
    ensures !r.isPriority <==> c == "#60a5fa"
  {
    if r.isPriority then "#ef4444" else "#60a5fa"
  }

  /** The popup excerpt: the first 30 characters (all of a shorter text), then "...". */
  function Excerpt(description: string): (e: string)
    ensures |description| <= 30 ==> e == description + "..."
    ensures |description| > 30 ==> |e| == 33 && e[..30] == description[..30]
    ensures |e| >= 3 && e[|e| - 3..] == "..."
  {
    (if |description| <= 30 then description else description[..30]) + "..."
  }

  datatype Marker = Marker(reportId: string, lat: real, lng: real, color: string, fillColor: string,
                           category: string, excerpt: string)

  /** The circle and popup for a plotted report: its position, its colours, its category and its excerpt. */
  function MarkerFor(r: Report): (m: Marker)
    requires HasGps(r)
    ensures m.reportId == r.id && m.lat == r.location.value.lat && m.lng == r.location.value.lng
    ensures m.color == StrokeColor(r) && m.fillColor == FillColor(r)
    ensures m.category == CategoryName(r.category) && m.excerpt == Excerpt(r.description)
  {
    Marker(r.id, r.location.value.lat, r.location.value.lng, StrokeColor(r), FillColor(r),
           CategoryName(r.category), Excerpt(r.description))
  }

  /** `reports.map(...)`: a marker or `null` for each report, in order. */
  function Slots(reports: seq<Report>): (slots: seq<Option<Marker>>)
    ensures |slots| == |reports|
    ensures forall i :: 0 <= i < |reports| ==> (slots[i].Some? <==> HasGps(reports[i]))
  {
    seq(|reports|, i requires 0 <= i < |reports| => if HasGps(reports[i]) then Some(MarkerFor(reports[i])) else None)
  }

  /** What the map draws: the non-null slots, in order. */
  function Drawn(slots: seq<Option<Marker>>): (ms: seq<Marker>)
    ensures |ms| <= |slots|
  {
    if slots == [] then []
    else (if slots[0].Some? then [slots[0].value] else []) + Drawn(slots[1..])
  }

  function MarkersOf(rs: seq<Report>): (ms: seq<Marker>)
    requires forall i :: 0 <= i < |rs| ==> HasGps(rs[i])
    ensures |ms| == |rs| && forall i :: 0 <= i < |rs| ==> ms[i] == MarkerFor(rs[i])
  {
    seq(|rs|, i requires 0 <= i < |rs| => MarkerFor(rs[i]))
  }

  lemma MarkersOfCons(r: Report, rs: seq<Report>)
    requires HasGps(r) && forall i :: 0 <= i < |rs| ==> HasGps(rs[i])
    ensures MarkersOf([r] + rs) == [MarkerFor(r)] + MarkersOf(rs)
  {
  }

  /** Exactly one marker per plotted report, in the order of the list. */
  lemma {:induction false} DrawnMarkers(reports: seq<Report>)
    ensures Drawn(Slots(reports)) == MarkersOf(Filter(reports, HasGps))
  {
    if reports != [] {
      var rest := reports[1..];
      DrawnMarkers(rest);
      var slots := Slots(reports);
      assert slots[1..] == Slots(rest);
      assert Drawn(slots) == (if slots[0].Some? then [slots[0].value] else []) + Drawn(Slots(rest));
      if HasGps(reports[0]) {
        assert Filter(reports, HasGps) == [reports[0]] + Filter(rest, HasGps);
        MarkersOfCons(reports[0], Filter(rest, HasGps));
      } else {
        assert Filter(reports, HasGps) == Filter(rest, HasGps);
      }
    }
  }

  /** A report is on the map exactly when its dashboard card shows the map link. */
  lemma MapAgreesWithDashboard(r: Report)
    ensures HasGps(r) <==> Dashboard.GpsCellFor(r.location).MapLink?
  {
  }
}

/** What `updateMapDisplay` (script.js) draws for a dataset: one styled region with its
    popup per feature, and one name label per feature. Leaflet's layer objects are
    abstracted as plain values: a region is its name, colour, popup and shape; a label
    is its text and the shape whose bounds centre anchors it. */
module Rendering {
  import opened Wrappers
  import opened Districts

  /** The three outline colours of the style callback. */
  datatype Color = Red | Green | Gray

  /** The style callback's colour choice: strict comparison of `properties.Status`
      with 'outage' and 'powered'; everything else, an absent status included, is gray. */
  function StyleColor(status: Option<string>): (c: Color)
    ensures c == Red <==> status == Some("outage")
    ensures c == Green <==> status == Some("powered")
    ensures c == Gray <==> status != Some("outage") && status != Some("powered")
  {
    if status == Some("outage") then Red
    else if status == Some("powered") then Green
    else Gray
  }

  /** JavaScript `value || fallback` for a string property: an absent value and the
      empty string are falsy and show the fallback. */
  function OrElse(value: Option<string>, fallback: string): (s: string)
    ensures value.Some? && value.value != "" ==> s == value.value
    ensures value.None? || value.value == "" ==> s == fallback
  {
    if value.Some? && value.value != "" then value.value else fallback
  }

  /** The population cell of a popup: the estimate, or the 'N/A' placeholder. */
  datatype PopulationCell = Estimate(count: int) | PopulationNA

  /** The fields a district popup shows, and the district its "Update Status" button
      asks to edit. Placeholders are 'N/A' for the times and 'Unknown' for the status. */
  datatype Popup = Popup(district: string, population: PopulationCell, status: string,
                         start: string, end: string, editTarget: string)

  /** The popup bound to a feature's region. `PopEst || 'N/A'` treats an absent
      estimate and the number 0 alike, since 0 is falsy. */
  function PopupOf(f: Feature): (p: Popup)
    ensures p.district == f.name && p.editTarget == f.name
    ensures p.population == PopulationNA <==> f.popEst == None || f.popEst == Some(0)
    ensures p.population != PopulationNA ==> p.population == Estimate(f.popEst.value)
    ensures p.status == OrElse(f.status, "Unknown")
    ensures p.start == OrElse(f.startTime, "N/A") && p.end == OrElse(f.endTime, "N/A")
  {
    Popup(f.name,
          if f.popEst.Some? && f.popEst.value != 0 then Estimate(f.popEst.value) else PopulationNA,
          OrElse(f.status, "Unknown"),
          OrElse(f.startTime, "N/A"),
          OrElse(f.endTime, "N/A"),
          f.name)
  }

  /** One drawn district: the layer Leaflet builds for a feature. */
  datatype Region = Region(name: string, color: Color, popup: Popup, shape: Geometry)

  /** One label marker: the district name, anchored at the centre of the bounds of
      `anchor`. */
  datatype Label = Label(text: string, anchor: Geometry)

  function RegionOf(f: Feature): Region {
    Region(f.name, StyleColor(f.status), PopupOf(f), f.geometry)
  }

  function LabelOf(f: Feature): Label {
    Label(f.name, f.geometry)
  }

  /** The regions drawn for the features, one per feature and in feature order. */
  function RegionsOf(fs: seq<Feature>): (rs: seq<Region>)
    ensures |rs| == |fs|
    ensures forall i :: 0 <= i < |fs| ==> rs[i] == RegionOf(fs[i])
  {
    if fs == [] then [] else RegionsOf(fs[..|fs| - 1]) + [RegionOf(fs[|fs| - 1])]
  }

  /** The labels added for the features, one per feature and in feature order. */
  function LabelsOf(fs: seq<Feature>): (ls: seq<Label>)
    ensures |ls| == |fs|
    ensures forall i :: 0 <= i < |fs| ==> ls[i] == LabelOf(fs[i])
  {
    if fs == [] then [] else LabelsOf(fs[..|fs| - 1]) + [LabelOf(fs[|fs| - 1])]
  }

  /** Drawing one more feature extends the regions and the labels by that feature's. */
  lemma DrawOneMore(fs: seq<Feature>, i: nat)
    requires i < |fs|
    ensures RegionsOf(fs[..i + 1]) == RegionsOf(fs[..i]) + [RegionOf(fs[i])]
    ensures LabelsOf(fs[..i + 1]) == LabelsOf(fs[..i]) + [LabelOf(fs[i])]
  {
    assert fs[..i + 1][..i] == fs[..i];
  }

  /** A status update never changes the labels: names and shapes are untouched. */
  lemma LabelsSurviveUpdate(data: Dataset, districtName: string, newStatus: string,
                            startTime: Option<string>, endTime: Option<string>)
    ensures LabelsOf(UpdateDistrictStatus(data, districtName, newStatus, startTime, endTime).features)
            == LabelsOf(data.features)
  {
    var r := UpdateDistrictStatus(data, districtName, newStatus, startTime, endTime);
    forall i | 0 <= i < |data.features|
      ensures LabelsOf(r.features)[i] == LabelsOf(data.features)[i]
    {
      assert SameDistrict(r.features[i], data.features[i]);
    }
  }

  /** The redraw after an update: every region of the updated district shows the new
      status's colour and popup (the submitted times, or 'N/A' when empty), and every
      other region is drawn exactly as before. */
  lemma RedrawAfterUpdate(data: Dataset, districtName: string, newStatus: string,
                          startTime: string, endTime: string)
    ensures var before := RegionsOf(data.features);
            var after := RegionsOf(UpdateDistrictStatus(data, districtName, newStatus,
                                                        Some(startTime), Some(endTime)).features);
            |after| == |before| &&
            forall i :: 0 <= i < |before| ==>
              if before[i].name == districtName then
                after[i].name == districtName && after[i].shape == before[i].shape &&
                after[i].color == StyleColor(Some(newStatus)) &&
                after[i].popup == before[i].popup.(status := OrElse(Some(newStatus), "Unknown"),
                                                   start := OrElse(Some(startTime), "N/A"),
                                                   end := OrElse(Some(endTime), "N/A"))
              else after[i] == before[i]
  {
    var r := UpdateDistrictStatus(data, districtName, newStatus, Some(startTime), Some(endTime));
    forall i | 0 <= i < |data.features| && data.features[i].name == districtName
      ensures RegionsOf(r.features)[i].popup ==
              RegionsOf(data.features)[i].popup.(status := OrElse(Some(newStatus), "Unknown"),
                                                 start := OrElse(Some(startTime), "N/A"),
                                                 end := OrElse(Some(endTime), "N/A"))
    {
      assert SameDistrict(r.features[i], data.features[i]);
    }
  }
}

/** The page state of script.js and its event handlers: the loaded dataset
    (`currentData`), the drawn district layer (`geojsonLayer`), the label group
    (`labelsLayer`) and whether it is on the map, and the status-update modal with its
    form fields. Leaflet and the DOM are abstracted as the values these fields hold. */
module MapPage {
  import opened Wrappers
  import opened Districts
  import opened Rendering

  /** The zoom level from which the `zoomend` handler puts the label group on the map. */
  const LabelZoom: int := 7

  /** The values of the modal form's fields: the read-only district input, the status
      select and the two date-time inputs. */
  datatype StatusForm = StatusForm(district: string, status: string, start: string, end: string)

  /** The fields of a freshly built form: an empty district, the select on its first
      option ('powered'), empty date-time inputs. */
  const BlankForm: StatusForm := StatusForm("", "powered", "", "")

  /** The prefill step of `openStatusUpdateModal`: with a feature found, status becomes
      `Status || 'other'` and the times `StartTime || ''` and `EndTime || ''`; with none
      found, the form keeps what it holds. The district field is written beforehand. */
  function Prefill(form: StatusForm, found: Option<Feature>): (r: StatusForm)
    ensures r.district == form.district
    ensures found.None? ==> r == form
    ensures found.Some? ==> r.status == OrElse(found.value.status, "other") &&
                            r.start == OrElse(found.value.startTime, "") &&
                            r.end == OrElse(found.value.endTime, "")
  {
    match found
    case None => form
    case Some(f) => form.(status := OrElse(f.status, "other"),
                          start := OrElse(f.startTime, ""),
                          end := OrElse(f.endTime, ""))
  }

  /** Reopening the form after a submit shows what was submitted: the district's stored
      status (or 'other' when the submitted status was empty) and the submitted times.
      The updated district must exist in the dataset. */
  lemma SubmitThenReopen(data: Dataset, submitted: StatusForm, current: StatusForm)
    requires exists i :: 0 <= i < |data.features| && data.features[i].name == submitted.district
    requires current.district == submitted.district
    ensures var after := UpdateDistrictStatus(data, submitted.district, submitted.status,
                                              Some(submitted.start), Some(submitted.end));
            Prefill(current, FindDistrict(after.features, submitted.district))
              == submitted.(status := if submitted.status == "" then "other" else submitted.status)
  {
    UpdateThenFind(data, submitted.district, submitted.status, Some(submitted.start), Some(submitted.end));
  }

  class Page {
    /** `currentData`; None until the document has loaded. */
    var currentData: Option<Dataset>
    /** `geojsonLayer` has been assigned (a district layer is on the map). */
    var drawn: bool
    /** The regions of the district layer on the map. */
    var regions: seq<Region>
    /** The markers in `labelsLayer`. */
    var labels: seq<Label>
    /** `labelsLayer` is on the map. */
    var labelsShown: bool
    /** The modal element exists (it is built on first use). */
    var modalCreated: bool
    /** The modal is displayed. */
    var modalVisible: bool
    /** The values of the modal form's fields. */
    var form: StatusForm

    /** Before the first draw there are no regions and no labels. */
    ghost predicate LayersClear()
      reads this
    {
      !drawn ==> regions == [] && labels == []
    }

    /** The map always shows the current dataset: once loaded, the drawn regions and the
        label group hold exactly one region and one label per feature of `currentData`;
        the modal is shown only once the data is loaded. */
    ghost predicate Valid()
      reads this
    {
      LayersClear() &&
      (drawn <==> currentData.Some?) &&
      (drawn ==> regions == RegionsOf(currentData.value.features) &&
                 labels == LabelsOf(currentData.value.features)) &&
      (modalVisible ==> modalCreated && currentData.Some?)
    }

    /** The labels a user sees: the whole group or none of it. */
    ghost function VisibleLabels(): seq<Label>
      reads this
    {
      if labelsShown then labels else []
    }

    /** The state when the script starts: nothing loaded or drawn, the (empty) label group
        already added to the map, no modal yet. */
    constructor ()
      ensures Valid()
      ensures currentData == None && !drawn && regions == [] && labels == [] && labelsShown
      ensures !modalCreated && !modalVisible
    {
      currentData := None;
      drawn := false;
      regions := [];
      labels := [];
      labelsShown := true;
      modalCreated := false;
      modalVisible := false;
      form := BlankForm;
    }

    /** `updateMapDisplay(data)`: remove the previous district layer and clear the label
        group (only when a layer was drawn before), then build the new layer, adding one
        label to the group for each feature as Leaflet visits it. */
    method UpdateMapDisplay(data: Dataset)
      requires LayersClear()
      modifies this`drawn, this`regions, this`labels
      ensures drawn
      ensures regions == RegionsOf(data.features)
      ensures labels == LabelsOf(data.features)
    {
      if drawn {
        regions := [];
        labels := [];
      }
      var fs := data.features;
      var layer: seq<Region> := [];
      var i := 0;
      while i < |fs|
        invariant 0 <= i <= |fs|
        invariant layer == RegionsOf(fs[..i])
        invariant labels == LabelsOf(fs[..i])
      {
        DrawOneMore(fs, i);
        layer := layer + [RegionOf(fs[i])];
        labels := labels + [LabelOf(fs[i])];
        i := i + 1;
      }
      assert fs[..i] == fs;
      regions := layer;
      drawn := true;
    }

    /** The fetch's success handler: store the document as `currentData`, then draw it. */
    method Load(data: Dataset)
      requires Valid()
      modifies this`currentData, this`drawn, this`regions, this`labels
      ensures Valid()
      ensures currentData == Some(data)
      ensures regions == RegionsOf(data.features) && labels == LabelsOf(data.features)
    {
      currentData := Some(data);
      UpdateMapDisplay(data);
    }

    /** `openStatusUpdateModal(districtName)`: find or build the modal, write the district
        field, then prefill status and times from the first feature of that name
        (`Status || 'other'`, `StartTime || ''`, `EndTime || ''`) and show the modal.
        An unknown name leaves the other fields as they were. Before the data has
        loaded, reading `currentData.features` throws (`thrown`): the district field is
        already written and the modal stays hidden. */
    method OpenStatusUpdateModal(districtName: string) returns (thrown: bool)
      requires Valid()
      modifies this`modalCreated, this`modalVisible, this`form
      ensures Valid()
      ensures modalCreated
      ensures thrown <==> currentData.None?
      ensures modalVisible == !thrown
      ensures form == Prefill((if old(modalCreated) then old(form) else BlankForm).(district := districtName),
                              if thrown then None else FindDistrict(currentData.value.features, districtName))
    {
      if !modalCreated {
        modalCreated := true;
        modalVisible := false;
        form := BlankForm;
      }
      form := form.(district := districtName);
      thrown := currentData.None?;
      if !thrown {
        var district := FindDistrict(currentData.value.features, districtName);
        if district.Some? {
          form := form.(status := OrElse(district.value.status, "other"),
                        start := OrElse(district.value.startTime, ""),
                        end := OrElse(district.value.endTime, ""));
        }
        modalVisible := true;
      }
    }

    /** The operator changes the status select and the two date-time inputs (the district
        input is read-only). */
    method EnterValues(status: string, start: string, end: string)
      requires Valid() && modalVisible
      modifies this`form
      ensures Valid()
      ensures form == old(form).(status := status, start := start, end := end)
    {
      form := form.(status := status, start := start, end := end);
    }

    /** The cancel button: hide the modal, keeping whatever the fields hold. */
    method Cancel()
      requires Valid() && modalCreated
      modifies this`modalVisible
      ensures Valid() && !modalVisible
    {
      modalVisible := false;
    }

    /** The form's submit handler: `currentData` becomes the updated copy first, then the
        map is redrawn from it and the modal hidden. Before the data has loaded, the deep
        copy of an undefined `currentData` throws and nothing changes. */
    method Submit() returns (thrown: bool)
      requires Valid() && modalCreated
      modifies this`currentData, this`drawn, this`regions, this`labels, this`modalVisible
      ensures Valid()
      ensures thrown <==> old(currentData).None?
      ensures thrown ==> unchanged(this)
      ensures !thrown ==>
                currentData == Some(UpdateDistrictStatus(old(currentData).value, form.district,
                                                         form.status, Some(form.start), Some(form.end))) &&
                regions == RegionsOf(currentData.value.features) &&
                labels == LabelsOf(currentData.value.features) &&
                !modalVisible
    {
      if currentData.None? {
        return true;
      }
      currentData := Some(UpdateDistrictStatus(currentData.value, form.district, form.status,
                                               Some(form.start), Some(form.end)));
      UpdateMapDisplay(currentData.value);
      modalVisible := false;
      thrown := false;
    }

    /** The `zoomend` handler: the label group is on the map exactly when the zoom level
        is at least 7; regions and labels themselves are untouched. */
    method OnZoomEnd(zoom: int)
      requires Valid()
      modifies this`labelsShown
      ensures Valid()
      ensures labelsShown <==> zoom >= LabelZoom
      ensures VisibleLabels() == if zoom >= LabelZoom then labels else []
    {
      if zoom >= LabelZoom {
        labelsShown := true;
      } else {
        labelsShown := false;
      }
    }
  }

  /** Two districts, A without a status and B powered: load, edit A to an outage, then
      zoom out and back in. */
  method TwoDistrictScenario(shapeA: Geometry, shapeB: Geometry)
  {
    var a := Feature("A", Some(1000), None, None, None, map[], shapeA);
    var b := Feature("B", None, Some("powered"), None, None, map[], shapeB);
    var page := new Page();
    page.Load(Dataset([a, b], map[]));
    assert |page.regions| == 2 && |page.labels| == 2;
    assert page.regions[0].color == Gray && page.regions[1].color == Green;
    var regionB := page.regions[1];

    var thrown := page.OpenStatusUpdateModal("A");
    assert !thrown && page.form == StatusForm("A", "other", "", "");
    page.EnterValues("outage", "2024-01-01T00:00", "2024-01-01T06:00");
    thrown := page.Submit();
    assert !thrown && !page.modalVisible;
    assert |page.regions| == 2 && |page.labels| == 2;
    assert page.regions[0].color == Red;
    assert page.regions[0].popup.start == "2024-01-01T00:00";
    assert page.regions[0].popup.end == "2024-01-01T06:00";
    assert page.regions[1] == regionB;

    page.OnZoomEnd(6);
    assert page.VisibleLabels() == [] && |page.regions| == 2;
    page.OnZoomEnd(7);
    assert |page.VisibleLabels()| == 2 && page.regions[0].color == Red;
  }
}

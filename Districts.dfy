/** The district dataset of the power-status map (script.js): a GeoJSON feature
    collection whose features are the districts, and the copy-on-write status update
    `updateDistrictStatus` together with the lookup `features.find` used by the edit form. */
module Districts {
  import opened Wrappers

  /** Stand-in for a district's GeoJSON geometry (a polygon or multipolygon): an
      uninterpreted value that is carried through every update and handed to the map
      library for drawing. Nothing here looks inside it. */
  datatype Geometry = Geometry(kind: string, rings: seq<seq<(real, real)>>)

  /** One feature of the collection. `name` is `properties.NAME_2`; `popEst`, `status`,
      `startTime` and `endTime` are `properties.PopEst`, `Status`, `StartTime` and
      `EndTime`, each None when the document does not carry it; `otherProps` holds the
      remaining properties, which are passed through untouched. */
  datatype Feature = Feature(
    name: string,
    popEst: Option<int>,
    status: Option<string>,
    startTime: Option<string>,
    endTime: Option<string>,
    otherProps: map<string, string>,
    geometry: Geometry)

  /** The feature collection: its features in document order and the collection's own
      top-level members (type, name, crs, ...), passed through untouched. */
  datatype Dataset = Dataset(features: seq<Feature>, header: map<string, string>)

  /** Everything about a feature that a status update never touches. */
  predicate SameDistrict(f: Feature, g: Feature) {
    f.name == g.name && f.popEst == g.popEst && f.otherProps == g.otherProps && f.geometry == g.geometry
  }

  /** The feature with its three status properties overwritten. */
  function Stamp(f: Feature, newStatus: string, startTime: string, endTime: string): Feature {
    f.(status := Some(newStatus), startTime := Some(startTime), endTime := Some(endTime))
  }

  /** `updateDistrictStatus(districtName, newStatus, startTime = '', endTime = '')` applied to
      the dataset `data` (the page's `currentData`). A time argument that the caller leaves
      out is None and is stored as the empty string. The result is a new value: Dafny
      datatypes cannot alias, which is what the deep copy through JSON achieves. Every
      feature whose name is exactly `districtName` gets the new status and times, with no
      check of the status value; every other feature is returned as it was, in the same
      order, and nothing else in the collection changes. */
  function UpdateDistrictStatus(data: Dataset, districtName: string, newStatus: string,
                                startTime: Option<string>, endTime: Option<string>): (r: Dataset)
    ensures r.header == data.header
    ensures |r.features| == |data.features|
    ensures forall i :: 0 <= i < |data.features| ==> SameDistrict(r.features[i], data.features[i])
    ensures forall i :: 0 <= i < |data.features| && data.features[i].name == districtName ==>
              r.features[i].status == Some(newStatus) &&
              r.features[i].startTime == Some(startTime.GetOr("")) &&
              r.features[i].endTime == Some(endTime.GetOr(""))
    ensures forall i :: 0 <= i < |data.features| && data.features[i].name != districtName ==>
              r.features[i] == data.features[i]
  {
    var fs := data.features;
    var start, end := startTime.GetOr(""), endTime.GetOr("");
    Dataset(seq(|fs|, i requires 0 <= i < |fs| =>
                  if fs[i].name == districtName then Stamp(fs[i], newStatus, start, end) else fs[i]),
            data.header)
  }

  /** `features.find(f => f.properties.NAME_2 === districtName)`: the first feature with
      that name, or None when there is none. */
  function FindDistrict(fs: seq<Feature>, districtName: string): (r: Option<Feature>)
    ensures r.None? <==> forall i :: 0 <= i < |fs| ==> fs[i].name != districtName
    ensures r.Some? ==> exists i :: 0 <= i < |fs| && fs[i] == r.value && fs[i].name == districtName &&
                                    forall j :: 0 <= j < i ==> fs[j].name != districtName
  {
    if fs == [] then None
    else if fs[0].name == districtName then Some(fs[0])
    else
      var r := FindDistrict(fs[1..], districtName);
      assert r.Some? ==> exists i :: 1 <= i < |fs| && fs[i] == r.value && fs[i].name == districtName &&
                                     forall j :: 0 <= j < i ==> fs[j].name != districtName by {
        if r.Some? {
          var k :| 0 <= k < |fs[1..]| && fs[1..][k] == r.value && fs[1..][k].name == districtName &&
                   forall j :: 0 <= j < k ==> fs[1..][j].name != districtName;
          assert fs[k + 1] == r.value;
          assert forall j :: 0 <= j < k + 1 ==> fs[j].name != districtName by {
            forall j | 0 <= j < k + 1 ensures fs[j].name != districtName {
              if j > 0 { assert fs[j] == fs[1..][j - 1]; }
            }
          }
        }
      }
      r
  }

  /** FindDistrict returns the feature at the first index carrying the name. */
  lemma {:induction false} FindDistrictAt(fs: seq<Feature>, districtName: string, k: nat)
    requires k < |fs| && fs[k].name == districtName
    requires forall j :: 0 <= j < k ==> fs[j].name != districtName
    ensures FindDistrict(fs, districtName) == Some(fs[k])
  {
    if k > 0 {
      assert fs[0].name != districtName;
      FindDistrictAt(fs[1..], districtName, k - 1);
    }
  }

  /** When some feature carries the name, FindDistrict finds the one at the first such
      index `k`. */
  lemma {:induction false} FirstDistrictIndex(fs: seq<Feature>, districtName: string) returns (k: nat)
    requires exists i :: 0 <= i < |fs| && fs[i].name == districtName
    ensures k < |fs| && fs[k].name == districtName
    ensures forall j :: 0 <= j < k ==> fs[j].name != districtName
    ensures FindDistrict(fs, districtName) == Some(fs[k])
  {
    if fs[0].name == districtName {
      k := 0;
    } else {
      var i :| 0 <= i < |fs| && fs[i].name == districtName;
      assert fs[1..][i - 1].name == districtName;
      var k' := FirstDistrictIndex(fs[1..], districtName);
      k := k' + 1;
    }
  }

  /** The first-match result of FindDistrict is determined by the names alone: two
      feature lists with the same names that agree on every feature named `districtName`
      give the same answer. */
  lemma FindDistrictByName(fs: seq<Feature>, gs: seq<Feature>, districtName: string)
    requires |fs| == |gs|
    requires forall i :: 0 <= i < |fs| ==> fs[i].name == gs[i].name
    requires forall i :: 0 <= i < |fs| && fs[i].name == districtName ==> fs[i] == gs[i]
    ensures FindDistrict(fs, districtName) == FindDistrict(gs, districtName)
  {
    if FindDistrict(fs, districtName).Some? {
      var i :| 0 <= i < |fs| && fs[i].name == districtName &&
               forall j :: 0 <= j < i ==> fs[j].name != districtName;
      FindDistrictAt(fs, districtName, i);
      FindDistrictAt(gs, districtName, i);
    }
  }

  /** Isolation: updating one district leaves what a lookup of any other name finds
      exactly as it was. */
  lemma UpdateIsolation(data: Dataset, n1: string, n2: string, newStatus: string,
                        startTime: Option<string>, endTime: Option<string>)
    requires n1 != n2
    ensures FindDistrict(UpdateDistrictStatus(data, n1, newStatus, startTime, endTime).features, n2)
            == FindDistrict(data.features, n2)
  {
    var r := UpdateDistrictStatus(data, n1, newStatus, startTime, endTime);
    FindDistrictByName(r.features, data.features, n2);
  }

  /** An update naming no district yields a dataset equal in content to the input. */
  lemma UpdateNoMatch(data: Dataset, districtName: string, newStatus: string,
                      startTime: Option<string>, endTime: Option<string>)
    requires forall i :: 0 <= i < |data.features| ==> data.features[i].name != districtName
    ensures UpdateDistrictStatus(data, districtName, newStatus, startTime, endTime) == data
  {
    var r := UpdateDistrictStatus(data, districtName, newStatus, startTime, endTime);
    assert r.features == data.features;
  }

  /** Updates overwrite unconditionally: of two updates of the same district, only the
      second one shows. */
  lemma UpdateLastWins(data: Dataset, districtName: string,
                       s1: string, a1: Option<string>, b1: Option<string>,
                       s2: string, a2: Option<string>, b2: Option<string>)
    ensures UpdateDistrictStatus(UpdateDistrictStatus(data, districtName, s1, a1, b1), districtName, s2, a2, b2)
            == UpdateDistrictStatus(data, districtName, s2, a2, b2)
  {
    var once := UpdateDistrictStatus(data, districtName, s1, a1, b1);
    var lhs := UpdateDistrictStatus(once, districtName, s2, a2, b2);
    var rhs := UpdateDistrictStatus(data, districtName, s2, a2, b2);
    assert lhs.features == rhs.features by {
      forall i | 0 <= i < |lhs.features| ensures lhs.features[i] == rhs.features[i] {
        assert SameDistrict(once.features[i], data.features[i]);
      }
    }
  }

  /** Applying the same update twice gives the same dataset as applying it once. */
  lemma UpdateIdempotent(data: Dataset, districtName: string, newStatus: string,
                         startTime: Option<string>, endTime: Option<string>)
    ensures var once := UpdateDistrictStatus(data, districtName, newStatus, startTime, endTime);
            UpdateDistrictStatus(once, districtName, newStatus, startTime, endTime) == once
  {
    UpdateLastWins(data, districtName, newStatus, startTime, endTime, newStatus, startTime, endTime);
  }

  /** Updates of two different districts do not interfere: their order does not matter. */
  lemma UpdatesCommute(data: Dataset, n1: string, s1: string, a1: Option<string>, b1: Option<string>,
                       n2: string, s2: string, a2: Option<string>, b2: Option<string>)
    requires n1 != n2
    ensures UpdateDistrictStatus(UpdateDistrictStatus(data, n1, s1, a1, b1), n2, s2, a2, b2)
            == UpdateDistrictStatus(UpdateDistrictStatus(data, n2, s2, a2, b2), n1, s1, a1, b1)
  {
    var d1 := UpdateDistrictStatus(data, n1, s1, a1, b1);
    var d2 := UpdateDistrictStatus(data, n2, s2, a2, b2);
    var lhs := UpdateDistrictStatus(d1, n2, s2, a2, b2);
    var rhs := UpdateDistrictStatus(d2, n1, s1, a1, b1);
    assert lhs.features == rhs.features by {
      forall i | 0 <= i < |lhs.features| ensures lhs.features[i] == rhs.features[i] {
        assert SameDistrict(d1.features[i], data.features[i]);
        assert SameDistrict(d2.features[i], data.features[i]);
      }
    }
  }

  /** After an update of a district that exists, looking that district up finds the
      first feature of that name carrying exactly the submitted status and times. */
  lemma UpdateThenFind(data: Dataset, districtName: string, newStatus: string,
                       startTime: Option<string>, endTime: Option<string>)
    requires exists i :: 0 <= i < |data.features| && data.features[i].name == districtName
    ensures var found := FindDistrict(UpdateDistrictStatus(data, districtName, newStatus, startTime, endTime).features,
                                      districtName);
            found.Some? && FindDistrict(data.features, districtName).Some? &&
            found.value == Stamp(FindDistrict(data.features, districtName).value,
                                 newStatus, startTime.GetOr(""), endTime.GetOr(""))
  {
    var r := UpdateDistrictStatus(data, districtName, newStatus, startTime, endTime);
    var k := FirstDistrictIndex(data.features, districtName);
    UpdatedNamesFirstAt(data, r, districtName, newStatus, startTime, endTime, k);
    FindDistrictAt(r.features, districtName, k);
  }

  /** Helper for UpdateThenFind: the first index carrying the name is the same before and
      after the update, and the feature there is the stamped one. */
  lemma UpdatedNamesFirstAt(data: Dataset, r: Dataset, districtName: string, newStatus: string,
                            startTime: Option<string>, endTime: Option<string>, k: nat)
    requires r == UpdateDistrictStatus(data, districtName, newStatus, startTime, endTime)
    requires k < |data.features| && data.features[k].name == districtName
    requires forall j :: 0 <= j < k ==> data.features[j].name != districtName
    ensures k < |r.features| && r.features[k].name == districtName
    ensures forall j :: 0 <= j < k ==> r.features[j].name != districtName
    ensures r.features[k] == Stamp(data.features[k], newStatus, startTime.GetOr(""), endTime.GetOr(""))
  {
    assert SameDistrict(r.features[k], data.features[k]);
    forall j | 0 <= j < k ensures r.features[j].name != districtName {
      assert SameDistrict(r.features[j], data.features[j]);
    }
  }
}

/** The device table: a search/type/compliance filter over the device list, the
    update-by-id that every editable cell routes through, and the compliance colour band. */
module Dashboard {
  import opened Types
  import opened Seqs
  import opened JsText
  import MockData
  import EditableField

  // ---- Filtering ----

  /** The type filter: `'all'` or one device type. */
  datatype TypeFilter = AllTypes | OnlyType(t: DeviceType)

  /** The compliance filter: `'all'` or a minimum score. */
  datatype ComplianceFilter = AllLevels | AtLeast(threshold: int)

  /** The three filter controls of the table. */
  datatype DeviceFilter = DeviceFilter(searchTerm: string, typeFilter: TypeFilter, complianceFilter: ComplianceFilter)

  /** The name matches ignoring (ASCII) case; the ip matches case-sensitively. */
  predicate MatchesSearch(d: Device, term: string)
  {
    Includes(ToLower(d.name), ToLower(term)) || Includes(d.ip, term)
  }

  predicate MatchesType(d: Device, tf: TypeFilter)
  {
    tf.AllTypes? || d.deviceType == tf.t
  }

  predicate MatchesCompliance(d: Device, cf: ComplianceFilter)
  {
    cf.AllLevels? || d.complianceScore >= cf.threshold
  }

  predicate Matches(d: Device, f: DeviceFilter)
  {
    MatchesSearch(d, f.searchTerm) && MatchesType(d, f.typeFilter) && MatchesCompliance(d, f.complianceFilter)
  }

  /** The filter's test as a function value, for `Filter`. */
  function Test(f: DeviceFilter): Device -> bool
  {
    d => Matches(d, f)
  }

  /** `filteredDevices`: the rows the table shows, in list order. */
  function FilteredDevices(ds: seq<Device>, f: DeviceFilter): (r: seq<Device>)
    ensures IsSubsequence(r, ds)
    ensures forall d :: d in r <==> d in ds && Matches(d, f)
    ensures forall d :: multiset(r)[d] == if Matches(d, f) then multiset(ds)[d] else 0
  {
    FilterIsSubsequence(ds, Test(f));
    FilterCount(ds, Test(f));
    Filter(ds, Test(f))
  }

  /** Empty search, type `'all'` and compliance `'all'` show the whole list unchanged. */
  lemma NoFilterShowsAll(ds: seq<Device>)
    ensures FilteredDevices(ds, DeviceFilter("", AllTypes, AllLevels)) == ds
  {
    forall d | d in ds ensures Matches(d, DeviceFilter("", AllTypes, AllLevels)) {
      IncludesEmpty(ToLower(d.name));
    }
    FilterAll(ds, Test(DeviceFilter("", AllTypes, AllLevels)));
  }

  /** Raising the compliance threshold never adds a row: the rows for the higher
      threshold are a subsequence of the rows for the lower one, and `'all'` shows
      a superset of every threshold. */
  lemma RaisingThresholdShrinks(ds: seq<Device>, term: string, tf: TypeFilter, low: int, high: int)
    requires low <= high
    ensures IsSubsequence(FilteredDevices(ds, DeviceFilter(term, tf, AtLeast(high))),
                          FilteredDevices(ds, DeviceFilter(term, tf, AtLeast(low))))
    ensures IsSubsequence(FilteredDevices(ds, DeviceFilter(term, tf, AtLeast(low))),
                          FilteredDevices(ds, DeviceFilter(term, tf, AllLevels)))
  {
    FilterMonotone(ds, Test(DeviceFilter(term, tf, AtLeast(high))), Test(DeviceFilter(term, tf, AtLeast(low))));
    FilterMonotone(ds, Test(DeviceFilter(term, tf, AtLeast(low))), Test(DeviceFilter(term, tf, AllLevels)));
  }

  /** The three filters may be applied one at a time, in any of the six orders, with the
      same result as the combined filter. */
  lemma FilterOrderIrrelevant(ds: seq<Device>, f: DeviceFilter)
    ensures var s := (d: Device) => MatchesSearch(d, f.searchTerm);
            var t := (d: Device) => MatchesType(d, f.typeFilter);
            var c := (d: Device) => MatchesCompliance(d, f.complianceFilter);
      && Filter(Filter(Filter(ds, s), t), c) == FilteredDevices(ds, f)
      && Filter(Filter(Filter(ds, s), c), t) == FilteredDevices(ds, f)
      && Filter(Filter(Filter(ds, t), s), c) == FilteredDevices(ds, f)
      && Filter(Filter(Filter(ds, t), c), s) == FilteredDevices(ds, f)
      && Filter(Filter(Filter(ds, c), s), t) == FilteredDevices(ds, f)
      && Filter(Filter(Filter(ds, c), t), s) == FilteredDevices(ds, f)
  {
    var s := (d: Device) => MatchesSearch(d, f.searchTerm);
    var t := (d: Device) => MatchesType(d, f.typeFilter);
    var c := (d: Device) => MatchesCompliance(d, f.complianceFilter);
    var st := (d: Device) => s(d) && t(d);
    var ct := (d: Device) => c(d) && t(d);
    // search, type, compliance and compliance, type, search are the combined filter
    FilterFilter(ds, s, t, st);
    FilterFilter(ds, st, c, Test(f));
    FilterFilter(ds, c, t, ct);
    FilterFilter(ds, ct, s, Test(f));
    // every other order swaps one adjacent pair of those two
    FilterCommutes(Filter(ds, s), c, t);
    FilterCommutes(ds, t, s);
    FilterCommutes(Filter(ds, t), c, s);
    FilterCommutes(Filter(ds, c), s, t);
  }

  /** The name test ignores letter case on both sides: lower-casing the device name
      changes nothing, and a term matches a name exactly when its lower-case form does. */
  lemma NameMatchIgnoresCase(d: Device, term: string)
    ensures MatchesSearch(d.(name := ToLower(d.name)), term) == MatchesSearch(d, term)
    ensures Includes(ToLower(d.name), ToLower(term)) == Includes(ToLower(d.name), ToLower(ToLower(term)))
  {
    ToLowerIdempotent(d.name);
    ToLowerIdempotent(term);
  }

  /** The ip test does not ignore case: a device whose ip holds upper-case letters is
      found by an upper-case term and missed by the lower-case one. */
  lemma IpMatchIsCaseSensitive()
    ensures var d := Device("9", "x", Switch, "FE80::1", 0, "", Online, "", "", "");
      MatchesSearch(d, "FE") && !MatchesSearch(d, "fe")
  {
    var d := Device("9", "x", Switch, "FE80::1", 0, "", Online, "", "", "");
    assert Includes(d.ip, "FE") by {
      assert StartsWith(d.ip, "FE");
    }
    LowerFeMissesUpperIp(d);
  }

  lemma LowerFeMissesUpperIp(d: Device)
    requires d.name == "x" && d.ip == "FE80::1"
    ensures !MatchesSearch(d, "fe")
  {
    assert ToLower("x") == "x" && ToLower("fe") == "fe";
    assert 'f' !in "FE80::1" && 'f' !in "x";
    FirstCharMissing("x", "fe");
    FirstCharMissing(d.ip, "fe");
  }

  /** The seed list filtered to switches shows exactly devices "1" and "3". */
  lemma SeedSwitches()
    ensures FilteredDevices(MockData.Devices, DeviceFilter("", OnlyType(Switch), AllLevels))
         == [MockData.CoreSw01, MockData.DistSw02]
  {
    SeedSwitchTests();
    FilterFourKeepsFirstAndThird(MockData.CoreSw01, MockData.EdgeFw01, MockData.DistSw02, MockData.BranchFw01,
                                 Test(DeviceFilter("", OnlyType(Switch), AllLevels)));
  }

  lemma SeedSwitchTests()
    ensures var p := Test(DeviceFilter("", OnlyType(Switch), AllLevels));
      p(MockData.CoreSw01) && !p(MockData.EdgeFw01) && p(MockData.DistSw02) && !p(MockData.BranchFw01)
  {
    var f := DeviceFilter("", OnlyType(Switch), AllLevels);
    EmptySearchMatches(MockData.CoreSw01);
    EmptySearchMatches(MockData.DistSw02);
    assert MatchesType(MockData.CoreSw01, f.typeFilter) && MatchesType(MockData.DistSw02, f.typeFilter);
    assert !MatchesType(MockData.EdgeFw01, f.typeFilter) && !MatchesType(MockData.BranchFw01, f.typeFilter);
  }

  lemma EmptySearchMatches(d: Device)
    ensures MatchesSearch(d, "")
  {
    IncludesEmpty(ToLower(d.name));
  }

  /** Searching the seed list for "fw-01" finds devices "2" and "4" by their names,
      whatever the letter case. */
  lemma SeedSearchFw01()
    ensures FilteredDevices(MockData.Devices, DeviceFilter("fw-01", AllTypes, AllLevels))
         == [MockData.EdgeFw01, MockData.BranchFw01]
  {
    SeedFw01Tests();
    FilterFourKeepsSecondAndFourth(MockData.CoreSw01, MockData.EdgeFw01, MockData.DistSw02, MockData.BranchFw01,
                                   Test(DeviceFilter("fw-01", AllTypes, AllLevels)));
  }

  /** The search "fw-01" matches both seed firewalls and neither seed switch. Each device
      is a lemma of its own, so each literal-string proof stays small. */
  lemma SeedFw01Tests()
    ensures var p := Test(DeviceFilter("fw-01", AllTypes, AllLevels));
      !p(MockData.CoreSw01) && p(MockData.EdgeFw01) && !p(MockData.DistSw02) && p(MockData.BranchFw01)
  {
    var f := DeviceFilter("fw-01", AllTypes, AllLevels);
    EdgeFw01MatchesFw01();
    BranchFw01MatchesFw01();
    CoreSw01MissesFw01();
    DistSw02MissesFw01();
    assert Matches(MockData.EdgeFw01, f) && Matches(MockData.BranchFw01, f);
    assert !Matches(MockData.CoreSw01, f) && !Matches(MockData.DistSw02, f);
  }

  /** "Edge-FW-01" ends in "FW-01", which lower-cases to "fw-01". */
  lemma EdgeFw01MatchesFw01()
    ensures MatchesSearch(MockData.EdgeFw01, "fw-01")
  {
    assert ToLower("FW-01") == "fw-01" == ToLower("fw-01");
    assert MockData.EdgeFw01.name == "Edge-" + "FW-01";
    FoundBySuffix(MockData.EdgeFw01, "Edge-", "FW-01", "fw-01");
  }

  /** "Branch-FW-01" ends in "FW-01", which lower-cases to "fw-01". */
  lemma BranchFw01MatchesFw01()
    ensures MatchesSearch(MockData.BranchFw01, "fw-01")
  {
    assert ToLower("FW-01") == "fw-01" == ToLower("fw-01");
    assert MockData.BranchFw01.name == "Branch-" + "FW-01";
    FoundBySuffix(MockData.BranchFw01, "Branch-", "FW-01", "fw-01");
  }

  /** "Core-SW-01" and "192.168.1.10" have no 'f' to start "fw-01". */
  lemma CoreSw01MissesFw01()
    ensures !MatchesSearch(MockData.CoreSw01, "fw-01")
  {
    assert ToLower("fw-01") == "fw-01";
    SwitchesHaveNoF();
    MissedWithoutF(MockData.CoreSw01, "fw-01");
  }

  /** "Dist-SW-02" and "192.168.2.10" have no 'f' to start "fw-01". */
  lemma DistSw02MissesFw01()
    ensures !MatchesSearch(MockData.DistSw02, "fw-01")
  {
    assert ToLower("fw-01") == "fw-01";
    SwitchesHaveNoF();
    MissedWithoutF(MockData.DistSw02, "fw-01");
  }

  /** Neither switch has an 'f' or 'F' in its name, nor an 'f' in its ip. */
  lemma SwitchesHaveNoF()
    ensures 'f' !in MockData.CoreSw01.name && 'F' !in MockData.CoreSw01.name && 'f' !in MockData.CoreSw01.ip
    ensures 'f' !in MockData.DistSw02.name && 'F' !in MockData.DistSw02.name && 'f' !in MockData.DistSw02.ip
  {
  }

  /** A device whose name ends in a text that lower-cases to the term matches it. */
  lemma FoundBySuffix(d: Device, prefix: string, suffix: string, term: string)
    requires d.name == prefix + suffix && ToLower(suffix) == ToLower(term)
    ensures MatchesSearch(d, term)
  {
    ToLowerAppend(prefix, suffix);
    IncludesSuffix(ToLower(prefix), ToLower(suffix));
  }

  /** A device with no 'f' or 'F' in its name and ip misses a term starting with 'f'. */
  lemma MissedWithoutF(d: Device, term: string)
    requires 'f' !in d.name && 'F' !in d.name && 'f' !in d.ip
    requires term != [] && term[0] == 'f' && ToLower(term) == term
    ensures !MatchesSearch(d, term)
  {
    assert 'f' !in ToLower(d.name) by {
      forall i | 0 <= i < |d.name| ensures ToLower(d.name)[i] != 'f' {
        ToLowerAt(d.name, i);
        assert d.name[i] != 'f' && d.name[i] != 'F';
      }
    }
    FirstCharMissing(ToLower(d.name), term);
    FirstCharMissing(d.ip, term);
  }

  // ---- Updating ----

  /** `{ ...device, ...update }`: each key present in the update overrides that field. */
  function MergeDevice(d: Device, u: DeviceUpdate): (r: Device)
    ensures r.id == d.id && r.lastAudit == d.lastAudit && r.status == d.status
    ensures (u.name.Some? ==> r.name == u.name.value) && (u.name.None? ==> r.name == d.name)
    ensures (u.deviceType.Some? ==> r.deviceType == u.deviceType.value) && (u.deviceType.None? ==> r.deviceType == d.deviceType)
    ensures (u.ip.Some? ==> r.ip == u.ip.value) && (u.ip.None? ==> r.ip == d.ip)
    ensures (u.complianceScore.Some? ==> r.complianceScore == u.complianceScore.value) &&
            (u.complianceScore.None? ==> r.complianceScore == d.complianceScore)
    ensures (u.vendor.Some? ==> r.vendor == u.vendor.value) && (u.vendor.None? ==> r.vendor == d.vendor)
    ensures (u.model.Some? ==> r.model == u.model.value) && (u.model.None? ==> r.model == d.model)
    ensures (u.location.Some? ==> r.location == u.location.value) && (u.location.None? ==> r.location == d.location)
  {
    d.(name := u.name.GetOr(d.name),
       deviceType := u.deviceType.GetOr(d.deviceType),
       ip := u.ip.GetOr(d.ip),
       complianceScore := u.complianceScore.GetOr(d.complianceScore),
       vendor := u.vendor.GetOr(d.vendor),
       model := u.model.GetOr(d.model),
       location := u.location.GetOr(d.location))
  }

  /** `{ ...u1, ...u2 }`: the keys of both, the later one winning. */
  function CombineUpdates(u1: DeviceUpdate, u2: DeviceUpdate): DeviceUpdate
  {
    DeviceUpdate(
      if u2.name.Some? then u2.name else u1.name,
      if u2.deviceType.Some? then u2.deviceType else u1.deviceType,
      if u2.ip.Some? then u2.ip else u1.ip,
      if u2.complianceScore.Some? then u2.complianceScore else u1.complianceScore,
      if u2.vendor.Some? then u2.vendor else u1.vendor,
      if u2.model.Some? then u2.model else u1.model,
      if u2.location.Some? then u2.location else u1.location)
  }

  /** An empty update changes nothing; applying an update twice is applying it once;
      two updates in a row are one combined update. */
  lemma MergeLaws(d: Device, u: DeviceUpdate, u1: DeviceUpdate, u2: DeviceUpdate)
    ensures MergeDevice(d, NoDeviceChange) == d
    ensures MergeDevice(MergeDevice(d, u), u) == MergeDevice(d, u)
    ensures MergeDevice(MergeDevice(d, u1), u2) == MergeDevice(d, CombineUpdates(u1, u2))
  {
  }

  /** `handleDeviceUpdate`'s new list: the devices whose id is `deviceId` are merged with
      the update, every other device is kept, and the order is kept. */
  function UpdateById(ds: seq<Device>, deviceId: string, u: DeviceUpdate): (r: seq<Device>)
    ensures |r| == |ds|
    ensures forall i :: 0 <= i < |ds| ==> r[i].id == ds[i].id
    ensures forall i :: 0 <= i < |ds| && ds[i].id != deviceId ==> r[i] == ds[i]
    ensures forall i :: 0 <= i < |ds| && ds[i].id == deviceId ==> r[i] == MergeDevice(ds[i], u)
  {
    if ds == [] then []
    else [if ds[0].id == deviceId then MergeDevice(ds[0], u) else ds[0]] + UpdateById(ds[1..], deviceId, u)
  }

  /** An unknown id leaves the list identical. */
  lemma UpdateUnknownIdIsNoop(ds: seq<Device>, deviceId: string, u: DeviceUpdate)
    requires forall d :: d in ds ==> d.id != deviceId
    ensures UpdateById(ds, deviceId, u) == ds
  {
    var r := UpdateById(ds, deviceId, u);
    forall i | 0 <= i < |ds| ensures r[i] == ds[i] {
      assert ds[i] in ds;
    }
  }

  /** Repeating an update changes nothing more. */
  lemma UpdateByIdIdempotent(ds: seq<Device>, deviceId: string, u: DeviceUpdate)
    ensures UpdateById(UpdateById(ds, deviceId, u), deviceId, u) == UpdateById(ds, deviceId, u)
  {
    var r1 := UpdateById(ds, deviceId, u);
    var r2 := UpdateById(r1, deviceId, u);
    forall i | 0 <= i < |ds| ensures r2[i] == r1[i] {
      if ds[i].id == deviceId {
        MergeLaws(ds[i], u, u, u);
      }
    }
  }

  /** Updating device "2"'s ip in the seed list changes that field only. */
  lemma SeedUpdateIp()
    ensures UpdateById(MockData.Devices, "2", NoDeviceChange.(ip := Some("10.0.0.1")))
         == MockData.Devices[1 := MockData.EdgeFw01.(ip := "10.0.0.1")]
  {
    var ds := MockData.Devices;
    var u := NoDeviceChange.(ip := Some("10.0.0.1"));
    var r := UpdateById(ds, "2", u);
    var expected := ds[1 := MockData.EdgeFw01.(ip := "10.0.0.1")];
    assert ds[0].id != "2" && ds[2].id != "2" && ds[3].id != "2";
    forall i | 0 <= i < 4 ensures r[i] == expected[i] {
    }
  }

  // ---- Compliance colour ----

  datatype Band = Green | Yellow | Red

  /** `getComplianceColor`: three bands that partition the scores. */
  function ComplianceColor(score: int): (b: Band)
    ensures b == Green <==> score >= 90
    ensures b == Yellow <==> 70 <= score < 90
    ensures b == Red <==> score < 70
  {
    if score >= 90 then Green
    else if score >= 70 then Yellow
    else Red
  }

  // ---- Editable cells ----

  /** The editable columns of a row. */
  datatype Column = NameColumn | VendorColumn | ModelColumn | TypeColumn | IpColumn | LocationColumn

  /** `String(value)`. */
  function FieldString(v: EditableField.FieldValue): string
  {
    match v
    case Text(s) => s
    case Number(n) => NumberToString(n)
  }

  /** The options of the type cell. */
  const TypeOptions: seq<string> := ["switch", "firewall"]

  /** A value the type cell can hand to `value as DeviceType`. */
  predicate NamesDeviceType(v: EditableField.FieldValue)
  {
    v.Text? && ParseDeviceType(v.s).Some?
  }

  /** The update object each cell's `onChange` passes to `handleDeviceUpdate`. The
      type cell's value is cast to a device type without a check, so it must name one. */
  function CellUpdate(col: Column, v: EditableField.FieldValue): (u: DeviceUpdate)
    requires col == TypeColumn ==> NamesDeviceType(v)
    ensures col != TypeColumn ==> u == NoDeviceChange.(name := if col == NameColumn then Some(FieldString(v)) else None,
                                                       vendor := if col == VendorColumn then Some(FieldString(v)) else None,
                                                       model := if col == ModelColumn then Some(FieldString(v)) else None,
                                                       ip := if col == IpColumn then Some(FieldString(v)) else None,
                                                       location := if col == LocationColumn then Some(FieldString(v)) else None)
    ensures col == TypeColumn ==> u == NoDeviceChange.(deviceType := ParseDeviceType(v.s)) && DeviceTypeName(u.deviceType.value) == v.s
  {
    match col
    case NameColumn => NoDeviceChange.(name := Some(FieldString(v)))
    case VendorColumn => NoDeviceChange.(vendor := Some(FieldString(v)))
    case ModelColumn => NoDeviceChange.(model := Some(FieldString(v)))
    case IpColumn => NoDeviceChange.(ip := Some(FieldString(v)))
    case LocationColumn => NoDeviceChange.(location := Some(FieldString(v)))
    case TypeColumn => NoDeviceChange.(deviceType := ParseDeviceType(v.s))
  }

  /** The type cell is a select over "switch" and "firewall" mounted with the device's
      type, so whatever it emits names a device type and the unchecked cast is safe. */
  lemma TypeCellEmitsDeviceTypes(t: DeviceType, events: seq<EditableField.Event>)
    requires forall i :: 0 <= i < |events| ==> EditableField.Offered(TypeOptions, events[i])
    ensures var emitted := EditableField.Run(EditableField.SelectField,
                                             EditableField.Initial(EditableField.Text(DeviceTypeName(t))), events).emitted;
      forall i :: 0 <= i < |emitted| ==> NamesDeviceType(emitted[i])
  {
    var s := EditableField.Initial(EditableField.Text(DeviceTypeName(t)));
    EditableField.SelectEmitsOnlyOptions(TypeOptions, s, events);
  }

  // ---- The component ----

  /** The table's four state cells. */
  class DeviceTable {
    var searchTerm: string
    var typeFilter: TypeFilter
    var complianceFilter: ComplianceFilter
    var devicesList: seq<Device>

    /** Mounting: empty search, both filters `'all'`, the seed devices. */
    constructor ()
      ensures searchTerm == "" && typeFilter == AllTypes && complianceFilter == AllLevels
      ensures devicesList == MockData.Devices
      ensures Rows() == devicesList
    {
      searchTerm := "";
      typeFilter := AllTypes;
      complianceFilter := AllLevels;
      devicesList := MockData.Devices;
      new;
      assert CurrentFilter() == DeviceFilter("", AllTypes, AllLevels);
      NoFilterShowsAll(devicesList);
    }

    function CurrentFilter(): DeviceFilter
      reads this
    {
      DeviceFilter(searchTerm, typeFilter, complianceFilter)
    }

    /** The rows currently shown. */
    function Rows(): seq<Device>
      reads this
    {
      FilteredDevices(devicesList, CurrentFilter())
    }

    method SetSearchTerm(term: string)
      modifies this
      ensures searchTerm == term
      ensures typeFilter == old(typeFilter) && complianceFilter == old(complianceFilter) && devicesList == old(devicesList)
    {
      searchTerm := term;
    }

    method SetTypeFilter(tf: TypeFilter)
      modifies this
      ensures typeFilter == tf
      ensures searchTerm == old(searchTerm) && complianceFilter == old(complianceFilter) && devicesList == old(devicesList)
    {
      typeFilter := tf;
    }

    method SetComplianceFilter(cf: ComplianceFilter)
      modifies this
      ensures complianceFilter == cf
      ensures searchTerm == old(searchTerm) && typeFilter == old(typeFilter) && devicesList == old(devicesList)
      ensures cf.AtLeast? && (old(complianceFilter).AllLevels? || old(complianceFilter).threshold <= cf.threshold)
              ==> IsSubsequence(Rows(), old(Rows()))
      ensures old(complianceFilter).AtLeast? && cf == AllLevels ==> IsSubsequence(old(Rows()), Rows())
    {
      if complianceFilter.AtLeast? && cf.AtLeast? && complianceFilter.threshold <= cf.threshold {
        RaisingThresholdShrinks(devicesList, searchTerm, typeFilter, complianceFilter.threshold, cf.threshold);
      } else if complianceFilter.AllLevels? && cf.AtLeast? {
        RaisingThresholdShrinks(devicesList, searchTerm, typeFilter, cf.threshold, cf.threshold);
      } else if complianceFilter.AtLeast? && cf == AllLevels {
        RaisingThresholdShrinks(devicesList, searchTerm, typeFilter, complianceFilter.threshold, complianceFilter.threshold);
      }
      complianceFilter := cf;
    }

    /** `handleDeviceUpdate`: replace the list by its updated copy; filters unchanged. */
    method HandleDeviceUpdate(deviceId: string, u: DeviceUpdate)
      modifies this
      ensures devicesList == UpdateById(old(devicesList), deviceId, u)
      ensures searchTerm == old(searchTerm) && typeFilter == old(typeFilter) && complianceFilter == old(complianceFilter)
    {
      devicesList := UpdateById(devicesList, deviceId, u);
    }

    /** A cell's `onChange`: one `handleDeviceUpdate` with that cell's update object. */
    method HandleCellChange(deviceId: string, col: Column, v: EditableField.FieldValue)
      requires col == TypeColumn ==> NamesDeviceType(v)
      modifies this
      ensures devicesList == UpdateById(old(devicesList), deviceId, CellUpdate(col, v))
      ensures searchTerm == old(searchTerm) && typeFilter == old(typeFilter) && complianceFilter == old(complianceFilter)
    {
      HandleDeviceUpdate(deviceId, CellUpdate(col, v));
    }
  }
}

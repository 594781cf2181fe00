/** The audit configuration screen: add, remove and edit the rules of the configuration
    whose id matches, toggle devices in and out of the selection, and list the devices
    eligible for the active configuration. */
module Auditing {
  import opened Types
  import opened Seqs
  import MockData

  /** `defaultRules`: the built-in rule list of each device type. */
  function DefaultRules(t: DeviceType): seq<AuditRule>
  {
    match t
    case Switch => [
      AuditRule("1", "Access Control", "Default VLAN Configuration", High, "no default vlan", 8),
      AuditRule("2", "Authentication", "TACACS+ Configuration", Medium, "tacacs+ enabled", 6)]
    case Firewall => [
      AuditRule("1", "Security Policy", "Default Deny Policy", Critical, "default-deny", 10),
      AuditRule("2", "Logging", "Syslog Configuration", Medium, "syslog enabled", 6)]
  }

  /** The two configurations the screen starts with. */
  const SeedConfigs: seq<AuditConfig> := [
    AuditConfig("1", "Switch Security Baseline", Switch, DefaultRules(Switch)),
    AuditConfig("2", "Firewall Security Baseline", Firewall, DefaultRules(Firewall))]

  // ---- Device selection ----

  /** `handleDeviceSelection`'s new selection: a selected id is removed (every occurrence
      of it), an unselected id is appended at the end. */
  function ToggleSelection(sel: seq<string>, deviceId: string): (r: seq<string>)
    ensures deviceId !in sel ==> r == sel + [deviceId]
    ensures deviceId in sel ==> deviceId !in r && IsSubsequence(r, sel)
    ensures deviceId in sel ==> forall x :: x in r <==> x in sel && x != deviceId
    ensures deviceId in sel ==> forall x :: multiset(r)[x] == if x == deviceId then 0 else multiset(sel)[x]
  {
    if deviceId in sel then
      FilterIsSubsequence(sel, x => x != deviceId);
      FilterCount(sel, x => x != deviceId);
      Filter(sel, x => x != deviceId)
    else sel + [deviceId]
  }

  /** Toggling an unselected id twice gives back exactly the same selection. */
  lemma ToggleTwiceRestores(sel: seq<string>, deviceId: string)
    requires deviceId !in sel
    ensures ToggleSelection(ToggleSelection(sel, deviceId), deviceId) == sel
  {
    var p := (x: string) => x != deviceId;
    FilterAppend(sel, [deviceId], p);
    FilterAll(sel, p);
    assert Filter([deviceId], p) == [] + Filter([], p);
  }

  /** Toggling any id twice gives back the same set of selected ids. */
  lemma ToggleTwiceSameMembers(sel: seq<string>, deviceId: string)
    ensures forall x :: x in ToggleSelection(ToggleSelection(sel, deviceId), deviceId) <==> x in sel
  {
    if deviceId !in sel {
      ToggleTwiceRestores(sel, deviceId);
    }
  }

  /** For a selected id the order is not restored: the id moves to the end. */
  lemma ToggleTwiceMovesToEnd()
    ensures ToggleSelection(ToggleSelection(["1", "2"], "1"), "1") == ["2", "1"]
  {
    var p := (x: string) => x != "1";
    assert ["1", "2"][1..] == ["2"];
    assert Filter(["2"], p) == ["2"] + Filter([], p);
    assert ToggleSelection(["1", "2"], "1") == ["2"];
  }

  /** A duplicate-free selection stays duplicate-free. */
  lemma ToggleKeepsNoDuplicates(sel: seq<string>, deviceId: string)
    requires NoDuplicates(sel)
    ensures NoDuplicates(ToggleSelection(sel, deviceId))
  {
    if deviceId in sel {
      FilterNoDuplicates(sel, x => x != deviceId);
    } else {
      var r := sel + [deviceId];
      forall i, j | 0 <= i < j < |r| ensures r[i] != r[j] {
        if j == |sel| {
          assert r[i] == sel[i];
        }
      }
    }
  }

  /** The Start Audit button is enabled exactly when some device is selected. */
  predicate StartAuditEnabled(sel: seq<string>)
  {
    |sel| != 0
  }

  /** After a toggle the button is enabled unless the toggled id was the only one selected. */
  lemma StartAuditAfterToggle(sel: seq<string>, deviceId: string)
    ensures StartAuditEnabled(ToggleSelection(sel, deviceId)) <==>
            deviceId !in sel || exists x :: x in sel && x != deviceId
  {
    if deviceId in sel {
      var r := ToggleSelection(sel, deviceId);
      if x :| x in sel && x != deviceId {
        assert x in r;
      }
      if r != [] {
        assert r[0] in sel && r[0] != deviceId;
      }
    }
  }

  // ---- Rules ----

  /** The rule `addRule` appends. */
  function NewRule(ruleId: string): AuditRule
  {
    AuditRule(ruleId, "New Category", "New Check", Medium, "", 5)
  }

  /** Two configurations agree on everything but their rules. */
  predicate SameHeader(a: AuditConfig, b: AuditConfig)
  {
    a.id == b.id && a.name == b.name && a.deviceType == b.deviceType
  }

  /** `configs.map(c => c.id === configId ? { ...c, rules: f(c.rules) } : c)`. */
  function MapMatching(cs: seq<AuditConfig>, configId: string, f: seq<AuditRule> -> seq<AuditRule>): (r: seq<AuditConfig>)
    ensures |r| == |cs|
    ensures forall i :: 0 <= i < |cs| ==> SameHeader(r[i], cs[i])
    ensures forall i :: 0 <= i < |cs| && cs[i].id != configId ==> r[i] == cs[i]
    ensures forall i :: 0 <= i < |cs| && cs[i].id == configId ==> r[i].rules == f(cs[i].rules)
  {
    if cs == [] then []
    else [if cs[0].id == configId then cs[0].(rules := f(cs[0].rules)) else cs[0]] + MapMatching(cs[1..], configId, f)
  }

  /** `addRule`: one default rule with id `ruleId` appended to each matching configuration;
      every configuration keeps its id, name and device type, the others are untouched. */
  function AddRuleTo(cs: seq<AuditConfig>, configId: string, ruleId: string): (r: seq<AuditConfig>)
    ensures |r| == |cs|
    ensures forall i :: 0 <= i < |cs| ==> SameHeader(r[i], cs[i])
    ensures forall i :: 0 <= i < |cs| && cs[i].id != configId ==> r[i] == cs[i]
    ensures forall i :: 0 <= i < |cs| && cs[i].id == configId ==>
      |r[i].rules| == |cs[i].rules| + 1 && r[i].rules[..|cs[i].rules|] == cs[i].rules
    ensures forall i :: 0 <= i < |cs| && cs[i].id == configId ==>
      var added := r[i].rules[|cs[i].rules|];
      added.id == ruleId && added.category == "New Category" && added.check == "New Check" &&
      added.severity == Medium && added.expectedValue == "" && added.weight == 5
  {
    var r := MapMatching(cs, configId, rules => rules + [NewRule(ruleId)]);
    assert forall i :: 0 <= i < |cs| && cs[i].id == configId ==> r[i].rules[..|cs[i].rules|] == cs[i].rules;
    r
  }

  /** `removeRule`: the matching configurations drop every rule with id `ruleId` and keep
      the other rules in order; everything else is untouched. */
  function RemoveRuleFrom(cs: seq<AuditConfig>, configId: string, ruleId: string): (r: seq<AuditConfig>)
    ensures |r| == |cs|
    ensures forall i :: 0 <= i < |cs| ==> SameHeader(r[i], cs[i])
    ensures forall i :: 0 <= i < |cs| && cs[i].id != configId ==> r[i] == cs[i]
    ensures forall i :: 0 <= i < |cs| && cs[i].id == configId ==>
      IsSubsequence(r[i].rules, cs[i].rules) &&
      forall x :: x in r[i].rules <==> x in cs[i].rules && x.id != ruleId
    ensures forall i :: 0 <= i < |cs| && cs[i].id == configId ==>
      forall x :: multiset(r[i].rules)[x] == if x.id == ruleId then 0 else multiset(cs[i].rules)[x]
  {
    var keep := (x: AuditRule) => x.id != ruleId;
    var r := MapMatching(cs, configId, rules => Filter(rules, keep));
    assert forall i :: 0 <= i < |cs| && cs[i].id == configId ==>
      IsSubsequence(r[i].rules, cs[i].rules) &&
      forall x :: multiset(r[i].rules)[x] == if x.id == ruleId then 0 else multiset(cs[i].rules)[x]
    by {
      forall i | 0 <= i < |cs| && cs[i].id == configId
        ensures IsSubsequence(r[i].rules, cs[i].rules)
        ensures forall x :: multiset(r[i].rules)[x] == if x.id == ruleId then 0 else multiset(cs[i].rules)[x]
      {
        FilterIsSubsequence(cs[i].rules, keep);
        FilterCount(cs[i].rules, keep);
      }
    }
    r
  }

  /** No configuration with that id holds a rule with that id. */
  predicate RuleAbsent(cs: seq<AuditConfig>, configId: string, ruleId: string)
  {
    forall i, j :: 0 <= i < |cs| && cs[i].id == configId && 0 <= j < |cs[i].rules| ==> cs[i].rules[j].id != ruleId
  }

  /** Removing an id no matching configuration holds changes nothing. */
  lemma RemoveAbsentRuleIsNoop(cs: seq<AuditConfig>, configId: string, ruleId: string)
    requires RuleAbsent(cs, configId, ruleId)
    ensures RemoveRuleFrom(cs, configId, ruleId) == cs
  {
    var keep := (x: AuditRule) => x.id != ruleId;
    var r := RemoveRuleFrom(cs, configId, ruleId);
    forall i | 0 <= i < |cs| ensures r[i] == cs[i] {
      if cs[i].id == configId {
        FilterAll(cs[i].rules, keep);
      }
    }
  }

  /** Adding a rule with a fresh id and then removing that id restores every configuration. */
  lemma AddThenRemoveRestores(cs: seq<AuditConfig>, configId: string, ruleId: string)
    requires RuleAbsent(cs, configId, ruleId)
    ensures RemoveRuleFrom(AddRuleTo(cs, configId, ruleId), configId, ruleId) == cs
  {
    var keep := (x: AuditRule) => x.id != ruleId;
    var added := AddRuleTo(cs, configId, ruleId);
    var r := RemoveRuleFrom(added, configId, ruleId);
    forall i | 0 <= i < |cs| ensures r[i] == cs[i] {
      if cs[i].id == configId {
        assert added[i].rules == cs[i].rules + [NewRule(ruleId)];
        FilterAppend(cs[i].rules, [NewRule(ruleId)], keep);
        FilterAll(cs[i].rules, keep);
        assert Filter([NewRule(ruleId)], keep) == [] + Filter([], keep);
      }
    }
  }

  /** `{ ...rule, ...updates }`: each key present in the update overrides that field. */
  function MergeRule(rule: AuditRule, u: RuleUpdate): (r: AuditRule)
    ensures (u.id.Some? ==> r.id == u.id.value) && (u.id.None? ==> r.id == rule.id)
    ensures (u.category.Some? ==> r.category == u.category.value) && (u.category.None? ==> r.category == rule.category)
    ensures (u.check.Some? ==> r.check == u.check.value) && (u.check.None? ==> r.check == rule.check)
    ensures (u.severity.Some? ==> r.severity == u.severity.value) && (u.severity.None? ==> r.severity == rule.severity)
    ensures (u.expectedValue.Some? ==> r.expectedValue == u.expectedValue.value) &&
            (u.expectedValue.None? ==> r.expectedValue == rule.expectedValue)
    ensures (u.weight.Some? ==> r.weight == u.weight.value) && (u.weight.None? ==> r.weight == rule.weight)
  {
    AuditRule(
      u.id.GetOr(rule.id),
      u.category.GetOr(rule.category),
      u.check.GetOr(rule.check),
      u.severity.GetOr(rule.severity),
      u.expectedValue.GetOr(rule.expectedValue),
      u.weight.GetOr(rule.weight))
  }

  /** `rules.map(rule => rule.id === ruleId ? { ...rule, ...updates } : rule)`. */
  function UpdateRules(rules: seq<AuditRule>, ruleId: string, u: RuleUpdate): (r: seq<AuditRule>)
    ensures |r| == |rules|
    ensures forall j :: 0 <= j < |rules| && rules[j].id != ruleId ==> r[j] == rules[j]
    ensures forall j :: 0 <= j < |rules| && rules[j].id == ruleId ==> r[j] == MergeRule(rules[j], u)
  {
    if rules == [] then []
    else [if rules[0].id == ruleId then MergeRule(rules[0], u) else rules[0]] + UpdateRules(rules[1..], ruleId, u)
  }

  /** `updateRule`: in the matching configurations the rules with id `ruleId` take the
      update, every other rule and configuration is untouched. */
  function UpdateRuleIn(cs: seq<AuditConfig>, configId: string, ruleId: string, u: RuleUpdate): (r: seq<AuditConfig>)
    ensures |r| == |cs|
    ensures forall i :: 0 <= i < |cs| ==> SameHeader(r[i], cs[i])
    ensures forall i :: 0 <= i < |cs| && cs[i].id != configId ==> r[i] == cs[i]
    ensures forall i :: 0 <= i < |cs| && cs[i].id == configId ==>
      |r[i].rules| == |cs[i].rules| &&
      (forall j :: 0 <= j < |cs[i].rules| && cs[i].rules[j].id != ruleId ==> r[i].rules[j] == cs[i].rules[j]) &&
      (forall j :: 0 <= j < |cs[i].rules| && cs[i].rules[j].id == ruleId ==> r[i].rules[j] == MergeRule(cs[i].rules[j], u))
  {
    MapMatching(cs, configId, rules => UpdateRules(rules, ruleId, u))
  }

  /** An update without an `id` key keeps every rule id. */
  lemma UpdateRuleKeepsIds(cs: seq<AuditConfig>, configId: string, ruleId: string, u: RuleUpdate)
    requires u.id.None?
    ensures var r := UpdateRuleIn(cs, configId, ruleId, u);
      forall i, j :: 0 <= i < |cs| && 0 <= j < |cs[i].rules| ==> r[i].rules[j].id == cs[i].rules[j].id
  {
    var r := UpdateRuleIn(cs, configId, ruleId, u);
    forall i, j | 0 <= i < |cs| && 0 <= j < |cs[i].rules| ensures r[i].rules[j].id == cs[i].rules[j].id {
      if cs[i].id == configId {
        assert |r[i].rules| == |cs[i].rules|;
      }
    }
  }

  /** An update that sets no key changes nothing. */
  lemma EmptyRuleUpdateIsNoop(cs: seq<AuditConfig>, configId: string, ruleId: string)
    ensures UpdateRuleIn(cs, configId, ruleId, NoRuleChange) == cs
  {
    var none := UpdateRuleIn(cs, configId, ruleId, NoRuleChange);
    forall i | 0 <= i < |cs| ensures none[i] == cs[i] {
      if cs[i].id == configId {
        assert none[i].rules == cs[i].rules;
      }
    }
  }

  // ---- Active configuration and eligible devices ----

  /** `configs.find(c => c.id === id)`: the first configuration with that id. */
  function FindConfig(cs: seq<AuditConfig>, id: string): (r: Option<AuditConfig>)
    ensures r.None? <==> forall i :: 0 <= i < |cs| ==> cs[i].id != id
    ensures r.Some? ==> exists i :: 0 <= i < |cs| && cs[i] == r.value && cs[i].id == id &&
                                    forall j :: 0 <= j < i ==> cs[j].id != id
  {
    if cs == [] then None
    else if cs[0].id == id then Some(cs[0])
    else
      var r := FindConfig(cs[1..], id);
      assert r.Some? ==> exists i :: 0 <= i < |cs[1..]| && cs[1..][i] == r.value && cs[1..][i].id == id &&
                                     forall j :: 0 <= j < i ==> cs[1..][j].id != id;
      r
  }

  /** Configurations that agree on their headers are found alike and have the same device type. */
  lemma {:induction false} FindConfigSameHeaders(a: seq<AuditConfig>, b: seq<AuditConfig>, id: string)
    requires |a| == |b| && forall i :: 0 <= i < |a| ==> SameHeader(a[i], b[i])
    ensures FindConfig(a, id).Some? == FindConfig(b, id).Some?
    ensures FindConfig(a, id).Some? ==> FindConfig(a, id).value.deviceType == FindConfig(b, id).value.deviceType
    decreases |a|
  {
    if a != [] && a[0].id != id {
      FindConfigSameHeaders(a[1..], b[1..], id);
    }
  }

  /** `device => device.type === t`. */
  function OfType(t: DeviceType): Device -> bool
  {
    (d: Device) => d.deviceType == t
  }

  /** The active configuration exists and is for the device's type. */
  predicate Eligible(d: Device, cs: seq<AuditConfig>, active: string)
  {
    FindConfig(cs, active).Some? && d.deviceType == FindConfig(cs, active).value.deviceType
  }

  /** The devices listed for selection: those whose type is the active configuration's
      device type, in list order; none when no configuration has the active id. */
  function EligibleDevices(devices: seq<Device>, cs: seq<AuditConfig>, active: string): (r: seq<Device>)
    ensures IsSubsequence(r, devices)
    ensures forall d :: d in r <==> d in devices && Eligible(d, cs, active)
    ensures forall d :: multiset(r)[d] == if Eligible(d, cs, active) then multiset(devices)[d] else 0
  {
    match FindConfig(cs, active)
    case None =>
      // `device.type === undefined` holds for no device
      []
    case Some(c) =>
      FilterIsSubsequence(devices, OfType(c.deviceType));
      FilterCount(devices, OfType(c.deviceType));
      Filter(devices, OfType(c.deviceType))
  }

  /** Editing rules never changes which devices are eligible. */
  lemma RuleEditsKeepEligibility(devices: seq<Device>, cs: seq<AuditConfig>, active: string,
                                 configId: string, ruleId: string, u: RuleUpdate)
    ensures EligibleDevices(devices, AddRuleTo(cs, configId, ruleId), active) == EligibleDevices(devices, cs, active)
    ensures EligibleDevices(devices, RemoveRuleFrom(cs, configId, ruleId), active) == EligibleDevices(devices, cs, active)
    ensures EligibleDevices(devices, UpdateRuleIn(cs, configId, ruleId, u), active) == EligibleDevices(devices, cs, active)
  {
    FindConfigSameHeaders(AddRuleTo(cs, configId, ruleId), cs, active);
    FindConfigSameHeaders(RemoveRuleFrom(cs, configId, ruleId), cs, active);
    FindConfigSameHeaders(UpdateRuleIn(cs, configId, ruleId, u), cs, active);
  }

  // ---- Seed scenarios ----

  /** With the seed configurations, the switch configuration lists devices "1" and "3". */
  lemma SeedEligibleSwitches()
    ensures EligibleDevices(MockData.Devices, SeedConfigs, "1") == [MockData.CoreSw01, MockData.DistSw02]
  {
    assert FindConfig(SeedConfigs, "1") == Some(SeedConfigs[0]);
    FilterFourKeepsFirstAndThird(MockData.CoreSw01, MockData.EdgeFw01, MockData.DistSw02, MockData.BranchFw01,
                                 OfType(Switch));
  }

  /** Adding a rule to configuration "1" adds one medium, weight-5 rule; removing it by
      its id restores the seed configurations. */
  lemma SeedAddRemoveRule(ruleId: string)
    requires ruleId != "1" && ruleId != "2"
    ensures var added := AddRuleTo(SeedConfigs, "1", ruleId);
      |added[0].rules| == 3 && added[0].rules[2].severity == Medium && added[0].rules[2].weight == 5 &&
      added[1] == SeedConfigs[1] &&
      RemoveRuleFrom(added, "1", ruleId) == SeedConfigs
  {
    assert SeedConfigs[1].id != "1";
    AddThenRemoveRestores(SeedConfigs, "1", ruleId);
  }

  /** Toggling device "2" twice from an empty selection leaves it empty, and the Start
      Audit button is enabled only in between. */
  lemma SeedToggleTwice()
    ensures ToggleSelection([], "2") == ["2"] && StartAuditEnabled(ToggleSelection([], "2"))
    ensures ToggleSelection(ToggleSelection([], "2"), "2") == []
    ensures !StartAuditEnabled(ToggleSelection(ToggleSelection([], "2"), "2"))
  {
    ToggleTwiceRestores([], "2");
  }

  // ---- The component ----

  /** The screen's three state cells. */
  class AuditEditor {
    var selectedDevices: seq<string>
    var auditConfigs: seq<AuditConfig>
    var activeConfig: string

    /** The selection never holds an id twice. */
    ghost predicate Valid()
      reads this
    {
      NoDuplicates(selectedDevices)
    }

    /** Mounting: nothing selected, the seed configurations, the first one active. */
    constructor ()
      ensures Valid()
      ensures selectedDevices == [] && auditConfigs == SeedConfigs && activeConfig == SeedConfigs[0].id
      ensures CurrentConfig() == Some(SeedConfigs[0])
      ensures SelectableDevices() == [MockData.CoreSw01, MockData.DistSw02]
      ensures !CanStartAudit()
    {
      selectedDevices := [];
      auditConfigs := SeedConfigs;
      activeConfig := SeedConfigs[0].id;
      SeedEligibleSwitches();
    }

    /** `currentConfig`. */
    function CurrentConfig(): Option<AuditConfig>
      reads this
    {
      FindConfig(auditConfigs, activeConfig)
    }

    /** `filteredDevices`: drawn from the seed device list. */
    function SelectableDevices(): seq<Device>
      reads this
    {
      EligibleDevices(MockData.Devices, auditConfigs, activeConfig)
    }

    /** The Start Audit button's `disabled` is `selectedDevices.length === 0`. */
    function CanStartAudit(): bool
      reads this
    {
      StartAuditEnabled(selectedDevices)
    }

    /** `handleDeviceSelection`. */
    method HandleDeviceSelection(deviceId: string)
      requires Valid()
      modifies this
      ensures Valid()
      ensures selectedDevices == ToggleSelection(old(selectedDevices), deviceId)
      ensures auditConfigs == old(auditConfigs) && activeConfig == old(activeConfig)
      ensures CanStartAudit() <==>
              deviceId !in old(selectedDevices) || exists x :: x in old(selectedDevices) && x != deviceId
    {
      ToggleKeepsNoDuplicates(selectedDevices, deviceId);
      StartAuditAfterToggle(selectedDevices, deviceId);
      selectedDevices := ToggleSelection(selectedDevices, deviceId);
    }

    /** `addRule`, with the new rule's id passed in. */
    method AddRule(configId: string, ruleId: string)
      requires Valid()
      modifies this
      ensures Valid()
      ensures auditConfigs == AddRuleTo(old(auditConfigs), configId, ruleId)
      ensures selectedDevices == old(selectedDevices) && activeConfig == old(activeConfig)
      ensures SelectableDevices() == old(SelectableDevices()) && CanStartAudit() == old(CanStartAudit())
    {
      RuleEditsKeepEligibility(MockData.Devices, auditConfigs, activeConfig, configId, ruleId, NoRuleChange);
      auditConfigs := AddRuleTo(auditConfigs, configId, ruleId);
      assert SelectableDevices() == EligibleDevices(MockData.Devices, auditConfigs, activeConfig);
    }

    /** `removeRule`. */
    method RemoveRule(configId: string, ruleId: string)
      requires Valid()
      modifies this
      ensures Valid()
      ensures auditConfigs == RemoveRuleFrom(old(auditConfigs), configId, ruleId)
      ensures selectedDevices == old(selectedDevices) && activeConfig == old(activeConfig)
      ensures SelectableDevices() == old(SelectableDevices()) && CanStartAudit() == old(CanStartAudit())
    {
      RuleEditsKeepEligibility(MockData.Devices, auditConfigs, activeConfig, configId, ruleId, NoRuleChange);
      auditConfigs := RemoveRuleFrom(auditConfigs, configId, ruleId);
      assert SelectableDevices() == EligibleDevices(MockData.Devices, auditConfigs, activeConfig);
    }

    /** `updateRule`. */
    method UpdateRule(configId: string, ruleId: string, u: RuleUpdate)
      requires Valid()
      modifies this
      ensures Valid()
      ensures auditConfigs == UpdateRuleIn(old(auditConfigs), configId, ruleId, u)
      ensures selectedDevices == old(selectedDevices) && activeConfig == old(activeConfig)
      ensures SelectableDevices() == old(SelectableDevices()) && CanStartAudit() == old(CanStartAudit())
    {
      RuleEditsKeepEligibility(MockData.Devices, auditConfigs, activeConfig, configId, ruleId, u);
      auditConfigs := UpdateRuleIn(auditConfigs, configId, ruleId, u);
      assert SelectableDevices() == EligibleDevices(MockData.Devices, auditConfigs, activeConfig);
    }

    /** The configuration picker. The selection is kept as it is, even ids of devices
        the new configuration does not list. */
    method SetActiveConfig(configId: string)
      requires Valid()
      modifies this
      ensures Valid()
      ensures activeConfig == configId
      ensures selectedDevices == old(selectedDevices) && auditConfigs == old(auditConfigs)
      ensures CurrentConfig().None? <==> forall c :: c in auditConfigs ==> c.id != configId
      ensures CanStartAudit() == old(CanStartAudit())
    {
      activeConfig := configId;
    }
  }
}

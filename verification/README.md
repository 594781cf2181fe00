# Network security monitor: device table, audit rule editor and inline edit field

This project is a Dafny model of the client-side logic in a small network security
monitoring dashboard. It covers three components:

- **Device table** (`dashboard.dfy`, module `Dashboard`). The device table has three controls:
  - a search box matched against each device's name, ignoring case, or its IP address, respecting case;
  - a device-type filter;
  - a minimum-compliance filter.

  It also has the update-by-id that every editable cell of a row goes through, and the three-band compliance colour.
  The component is the class `DeviceTable`, whose four state cells are fields. Its
  handlers replace the device list by an updated copy computed by the pure `UpdateById`.
- **Audit configuration screen** (`auditing.dfy`, module `Auditing`). It manages:
  - the selection of devices to audit, toggled one id at a time;
  - the audit configurations and their rules, with add, remove and update;
  - the active configuration;
  - the devices eligible for it;
  - whether Start Audit is enabled.

  The component is the class `AuditEditor`. Its handlers assign the results of pure
  functions (`ToggleSelection`, `AddRuleTo`, `RemoveRuleFrom`, `UpdateRuleIn`).
- **Inline edit field** (`editable_field.dfy`, module `EditableField`). A value is shown as
  text until clicked. Then an input (or a select) holds a pending value. Blur or Enter
  commits it and calls `onChange` once; Escape discards it. The class `Field` holds
  the `value` prop and the two state cells `isEditing` and `currentValue`, and its
  methods are the event handlers. Each method is proved to perform exactly the
  transition of the pure function `Step`. `Run` folds `Step` over a sequence of
  events, and the lemmas about whole interactions are stated over `Run`.

Supporting modules:
- `Seqs`: filtering, subsequences and duplicate-freedom.
- `JsText`: the JavaScript primitives the components use:
  - `toLowerCase` on ASCII;
  - `includes`;
  - `Number(string)` and `String(number)` on decimal integers.
- `Types`: the records.
- `MockData`: the four seed devices.

Behaviour of the code that is easy to miss:
- The search is case-insensitive on the device name only. The IP test uses `includes`
  without lower-casing (`Dashboard.IpMatchIsCaseSensitive`).
- Clicking a field does not reset the pending value to the prop. A field committed, then
  given a new prop by its parent, and clicked again still holds the old pending value
  (`EditableField.ClickKeepsOldPending`).
- A commit does not change the field's own `value`. It only calls `onChange`. The field
  shows the new value once the parent passes it down again (event `NewValue`).
- A number field converts its input on every change event, not at commit.
- The device selection is an ordered list of ids. Toggling an absent id twice restores it
  exactly. Toggling a present id twice keeps the same members but moves the id to the
  end (`Auditing.ToggleTwiceMovesToEnd`).
- `AuditRule` and `AuditConfig` are imported from `src/types.ts`, but that file does not
  declare them. Their shape is taken from the literals in
  `src/components/Auditing.tsx:6-60` and `:76-83`.

## Model

| member | source | states |
|---|---|---|
| Dashboard.FilteredDevices | src/components/Dashboard.tsx:13-19 | the rows are a subsequence of the device list (order kept), and a device is shown iff the search, type and compliance tests all pass, with every copy of a shown device kept |
| Dashboard.NoFilterShowsAll | src/components/Dashboard.tsx:8-19 | the initial controls (empty search, type 'all', compliance 'all') show the whole list unchanged |
| Dashboard.RaisingThresholdShrinks | src/components/Dashboard.tsx:17 | a higher compliance threshold shows a subsequence of the rows of a lower one, and every threshold a subsequence of 'all' |
| Dashboard.FilterOrderIrrelevant | src/components/Dashboard.tsx:13-19 | applying the search, type and compliance filters one after another, in any of the six orders, gives the combined filter's rows |
| Dashboard.NameMatchIgnoresCase | src/components/Dashboard.tsx:14 | the name test gives the same answer for a name and its lower-case form, and for a term and its lower-case form |
| Dashboard.IpMatchIsCaseSensitive | src/components/Dashboard.tsx:14-15 | a device with IP "FE80::1" and name "x" is found by "FE" but not by "fe" |
| Dashboard.SeedSwitches | src/components/Dashboard.tsx:16 | with the seed devices, type 'switch' shows exactly devices "1" and "3", in that order |
| Dashboard.SeedSearchFw01 | src/components/Dashboard.tsx:14-15 | with the seed devices, search "fw-01" shows exactly devices "2" and "4" |
| Dashboard.MergeDevice | src/components/Dashboard.tsx:25 | each key present in the update replaces that field, every absent key keeps it; id, lastAudit and status never change |
| Dashboard.MergeLaws | src/components/Dashboard.tsx:25 | the empty update is the identity, merging the same update twice is merging it once, two merges equal one merge of the combined update |
| Dashboard.UpdateById | src/components/Dashboard.tsx:21-29 | same length and ids in the same order; devices with another id unchanged; devices with the id merged with the update |
| Dashboard.UpdateUnknownIdIsNoop | src/components/Dashboard.tsx:21-29 | an id no device has leaves the list identical |
| Dashboard.UpdateByIdIdempotent | src/components/Dashboard.tsx:21-29 | applying the same update twice equals applying it once |
| Dashboard.SeedUpdateIp | src/components/Dashboard.tsx:21-29 | setting device "2"'s ip to "10.0.0.1" in the seed list changes that one field and nothing else |
| Dashboard.ComplianceColor | src/components/Dashboard.tsx:31-35 | green iff score >= 90, yellow iff 70 <= score < 90, red iff score < 70 (a partition of the scores) |
| Dashboard.CellUpdate | src/components/Dashboard.tsx:104-141 | each cell sends an update with only its own key, holding `String(value)`; the type cell sends the device type its text names |
| Dashboard.TypeCellEmitsDeviceTypes | src/components/Dashboard.tsx:124-129 | a select field seeded with a device type over the options "switch"/"firewall" only ever emits names of device types, so the unchecked cast is sound |
| Dashboard.DeviceTable.constructor | src/components/Dashboard.tsx:8-11 | mounting starts with an empty search, both filters 'all' and the seed device list, so every seed device is shown |
| Dashboard.DeviceTable.SetSearchTerm | src/components/Dashboard.tsx:60 | sets the search term, every other cell unchanged |
| Dashboard.DeviceTable.SetTypeFilter | src/components/Dashboard.tsx:66 | sets the type filter, every other cell unchanged |
| Dashboard.DeviceTable.SetComplianceFilter | src/components/Dashboard.tsx:75 | sets the compliance filter, every other cell unchanged; moving from 'all' to a threshold or raising the threshold shows a subsequence of the rows shown before, going back to 'all' a supersequence |
| Dashboard.DeviceTable.HandleDeviceUpdate | src/components/Dashboard.tsx:21-29 | the device list becomes `UpdateById` of the old list; the filters are unchanged |
| Dashboard.DeviceTable.HandleCellChange | src/components/Dashboard.tsx:104-141 | a cell's commit performs one device update with that cell's update object |
| Auditing.ToggleSelection | src/components/Auditing.tsx:63-69 | an absent id is appended at the end; a present id is removed entirely (no copy left), every copy of each other id kept, in order |
| Auditing.ToggleTwiceRestores | src/components/Auditing.tsx:63-69 | toggling an unselected id twice gives back exactly the same selection |
| Auditing.ToggleTwiceSameMembers | src/components/Auditing.tsx:63-69 | toggling any id twice gives back the same selected ids |
| Auditing.ToggleTwiceMovesToEnd | src/components/Auditing.tsx:63-69 | toggling selected id "1" of ["1","2"] twice gives ["2","1"]: order is not restored |
| Auditing.ToggleKeepsNoDuplicates | src/components/Auditing.tsx:63-69 | a selection without duplicates stays without duplicates |
| Auditing.StartAuditAfterToggle | src/components/Auditing.tsx:242 | after a toggle Start Audit is enabled iff the id was absent or another id remains selected |
| Auditing.SeedToggleTwice | src/components/Auditing.tsx:63-69 | toggling device "2" twice from an empty selection gives ["2"] then []; Start Audit is enabled only in between |
| Auditing.MapMatching | src/components/Auditing.tsx:72-87 | configuration count, ids, names and device types kept; non-matching configurations unchanged; matching ones get the transformed rules |
| Auditing.AddRuleTo | src/components/Auditing.tsx:71-88 | each matching configuration gets one rule appended (id given, 'New Category', 'New Check', medium, '', weight 5); the earlier rules and every other configuration unchanged |
| Auditing.RemoveRuleFrom | src/components/Auditing.tsx:90-100 | matching configurations keep their rules with another id, in order and every copy of each, and no rule with the id; other configurations unchanged |
| Auditing.RemoveAbsentRuleIsNoop | src/components/Auditing.tsx:90-100 | removing an id that no matching configuration holds changes nothing |
| Auditing.AddThenRemoveRestores | src/components/Auditing.tsx:71-100 | adding a rule with a fresh id and then removing that id restores every configuration |
| Auditing.MergeRule | src/components/Auditing.tsx:107 | each key present in the partial rule replaces that field (id included), every absent key keeps it |
| Auditing.UpdateRules | src/components/Auditing.tsx:106-108 | same length; the rules with the id merged with the update, every other rule unchanged |
| Auditing.UpdateRuleIn | src/components/Auditing.tsx:102-114 | in matching configurations only the rules with the id change, by the merge; other configurations unchanged; headers kept |
| Auditing.UpdateRuleKeepsIds | src/components/Auditing.tsx:102-114 | an update without an id key keeps every rule id |
| Auditing.EmptyRuleUpdateIsNoop | src/components/Auditing.tsx:102-114 | an update that sets no key leaves every configuration unchanged |
| Auditing.FindConfig | src/components/Auditing.tsx:122 | None iff no configuration has the id; otherwise the first configuration with that id |
| Auditing.FindConfigSameHeaders | src/components/Auditing.tsx:122 | configuration lists with the same headers find the same device type for every id |
| Auditing.EligibleDevices | src/components/Auditing.tsx:122-123 | a subsequence of the devices; a device is listed iff the active configuration exists and has the device's type, with every copy of a listed device kept |
| Auditing.RuleEditsKeepEligibility | src/components/Auditing.tsx:71-123 | adding, removing or updating rules never changes the eligible devices |
| Auditing.SeedEligibleSwitches | src/components/Auditing.tsx:47-61 | with the seed configurations and devices, configuration "1" lists exactly devices "1" and "3" |
| Auditing.SeedAddRemoveRule | src/components/Auditing.tsx:71-100 | adding a rule to seed configuration "1" gives three rules, the new one medium with weight 5, and configuration "2" unchanged; removing it by id restores the seed |
| Auditing.AuditEditor.constructor | src/components/Auditing.tsx:46-61 | mounting starts with no selection, the two seed configurations, the first one active: it is the current configuration, switches "1" and "3" are selectable and Start Audit is disabled |
| Auditing.AuditEditor.HandleDeviceSelection | src/components/Auditing.tsx:63-69 | the selection becomes its toggle and stays duplicate-free; configurations and active id unchanged; Start Audit is enabled afterwards iff the id was absent or another id was selected |
| Auditing.AuditEditor.AddRule | src/components/Auditing.tsx:71-88 | the configurations become `AddRuleTo` of the old ones; selection and active id unchanged; the selectable devices and Start Audit unchanged |
| Auditing.AuditEditor.RemoveRule | src/components/Auditing.tsx:90-100 | the configurations become `RemoveRuleFrom` of the old ones; selection and active id unchanged; the selectable devices and Start Audit unchanged |
| Auditing.AuditEditor.UpdateRule | src/components/Auditing.tsx:102-114 | the configurations become `UpdateRuleIn` of the old ones; selection and active id unchanged; the selectable devices and Start Audit unchanged |
| Auditing.AuditEditor.SetActiveConfig | src/components/Auditing.tsx:144 | sets the active id; there is no current configuration iff no configuration has that id; the selection, and so Start Audit, is kept as it is, even ids the new configuration does not list |
| EditableField.Step | src/components/EditableField.tsx:28-77 | the prop changes only by a new prop; `onChange` is called iff editing and the event is blur or Enter, with the pending value, leaving editing; Escape while editing restores the initial state; click enters editing keeping the pending value; change while editing sets the converted input |
| EditableField.RunAppend | src/components/EditableField.tsx:28-77 | running two event sequences one after the other is running their concatenation |
| EditableField.EditsStayEditing | src/components/EditableField.tsx:48-67 | change events while editing only replace the pending value and never call `onChange` |
| EditableField.CommitEmitsOnce | src/components/EditableField.tsx:28-35 | click, any edits, then blur or Enter: back in display mode and `onChange` called exactly once, with the last pending value |
| EditableField.CancelRestores | src/components/EditableField.tsx:36-39 | click, any edits, then Escape: back to the initial state for the prop and `onChange` never called |
| EditableField.ClickKeepsOldPending | src/components/EditableField.tsx:77 | after the prop changes from "a" to "b", a click then blur emits "a" |
| EditableField.SelectEmitsOnlyOptions | src/components/EditableField.tsx:43-58 | a select field whose prop is an option, fed only option values, emits only options |
| EditableField.NumberFieldEmitsNumbers | src/components/EditableField.tsx:18-67 | a number field whose prop and pending value are numbers, given only number props, keeps both numbers and emits only numbers |
| EditableField.TextFieldEmitsText | src/components/EditableField.tsx:18-71 | a text or select field whose prop and pending value are strings, given only string props, keeps both strings and emits only strings |
| EditableField.EmptyOptionsFallBack | src/components/EditableField.tsx:43-67 | a select field without options renders a plain input, and any typed text becomes the pending value |
| EditableField.DisplayShowsProp | src/components/EditableField.tsx:75-81 | after a commit or a cancel the field shows the prop, not the pending value |
| EditableField.Field.constructor | src/components/EditableField.tsx:18-19 | mounting: not editing, pending value equal to the prop, the prop shown as text |
| EditableField.Field.OnClick | src/components/EditableField.tsx:77 | performs `Step`'s click transition: editing, pending value and prop unchanged; the select or input shows the pending value |
| EditableField.Field.OnChange | src/components/EditableField.tsx:48-67 | performs `Step`'s change transition: while editing the pending value becomes the input, converted by `Number` for number fields |
| EditableField.Field.HandleBlur | src/components/EditableField.tsx:28-31 | performs `Step`'s blur transition: while editing it leaves editing and returns the pending value as the one `onChange` value; afterwards the field shows the prop |
| EditableField.Field.HandleKeyDown | src/components/EditableField.tsx:33-40 | performs `Step`'s key transition: Enter commits like blur, Escape restores the initial state without emitting, other keys do nothing; after Enter or Escape the field shows the prop |
| EditableField.Field.Rerender | src/components/EditableField.tsx:11-19 | a new prop replaces `value`; both state cells keep their values |
| JsText.IncludesAtOffset | src/components/Dashboard.tsx:14-15 | `includes` holds iff the term occurs at some offset of the text |
| JsText.ToLowerIdempotent | src/components/Dashboard.tsx:14 | lower-casing twice is lower-casing once |
| JsText.NumberOfNumberToString | src/components/EditableField.tsx:67 | `Number(String(x))` gives back `x` for every integer and for NaN |
| Types.ParseDeviceType | src/types.ts:1 | a string names a device type iff it is "switch" or "firewall", and the name of the type found is that string |

## Left out

- `src/components/Reports.tsx`, `src/App.tsx` and the audit reports in `src/data/mockData.ts` are not part of this model. Neither are `AuditReport` and `AuditFinding`.
- Rendering, CSS classes, icons and the focus effect of the edit field (`EditableField.tsx:22-26`) are not modelled. Focus has no effect on the field's state.
- `startAudit` (`Auditing.tsx:116-120`) only logs and shows an alert. Only its enable condition is modelled.
- The new rule's id is `Date.now().toString()`. It is a parameter here. Only the add-then-remove round trip needs it fresh.
- `Number()` is modelled only on the empty string and on decimal integers with an optional minus sign. Any other input gives NaN. Fractions, exponents, surrounding whitespace, hex, "Infinity" and -0 are not modelled. Compliance scores, thresholds and rule weights are integers.
- `toLowerCase` lower-cases ASCII letters only. Unicode case mapping is not modelled.
- React's batching and asynchronous state updates are not modelled. Each handler is one atomic update of its state cells.
- The weight input (`Auditing.tsx:216`) sends `Number(text)`, which can be NaN. `RuleUpdate.weight` is an integer, so a NaN weight cannot be represented.
- The severity select casts its value with `as any` (`Auditing.tsx:200`). The model takes a `Severity`, which the select's four options always are.
- `Dashboard.CellUpdate`: requires that the type cell's value names a device type. The source casts without a check; `Dashboard.TypeCellEmitsDeviceTypes` shows the field never emits anything else.
- `EditableField.Step`: a handler of an element that is not rendered cannot fire. So a change, blur or key event in display mode, and a click while editing, leave the state unchanged.
- The rule-editing handlers of the audit screen always pass the active configuration's id. The model's methods take the id as a parameter, which covers that case.

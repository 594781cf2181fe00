/** The records the components exchange: devices, partial device updates, audit rules
    and audit configurations. */
module Types {

  datatype Option<+T> = None | Some(value: T) {
    /** The carried value, or `default` when there is none. */
    function GetOr(default: T): T
    {
      match this
      case Some(v) => v
      case None => default
    }
  }

  /** `'switch' | 'firewall'`. */
  datatype DeviceType = Switch | Firewall

  /** `'online' | 'offline'`. */
  datatype Status = Online | Offline

  /** A monitored network device. The source field `type` is called `deviceType` here. */
  datatype Device = Device(
    id: string,
    name: string,
    deviceType: DeviceType,
    ip: string,
    complianceScore: int,
    lastAudit: string,
    status: Status,
    vendor: string,
    model: string,
    location: string)

  /** A partial device record: `None` is a key absent from the update object.
      It has no `id`, `lastAudit` or `status` key. */
  datatype DeviceUpdate = DeviceUpdate(
    name: Option<string>,
    deviceType: Option<DeviceType>,
    ip: Option<string>,
    complianceScore: Option<int>,
    vendor: Option<string>,
    model: Option<string>,
    location: Option<string>)

  /** The update object with no key at all. */
  const NoDeviceChange := DeviceUpdate(None, None, None, None, None, None, None)

  /** `'critical' | 'high' | 'medium' | 'low'`. */
  datatype Severity = Critical | High | Medium | Low

  /** One checkable expectation of an audit configuration. */
  datatype AuditRule = AuditRule(
    id: string,
    category: string,
    check: string,
    severity: Severity,
    expectedValue: string,
    weight: int)

  /** `Partial<AuditRule>`: every key, `id` included, may be present or absent. */
  datatype RuleUpdate = RuleUpdate(
    id: Option<string>,
    category: Option<string>,
    check: Option<string>,
    severity: Option<Severity>,
    expectedValue: Option<string>,
    weight: Option<int>)

  /** The partial rule with no key at all. */
  const NoRuleChange := RuleUpdate(None, None, None, None, None, None)

  /** A named, device-type-scoped list of audit rules. */
  datatype AuditConfig = AuditConfig(
    id: string,
    name: string,
    deviceType: DeviceType,
    rules: seq<AuditRule>)

  /** The string the UI shows and stores for a device type. */
  function DeviceTypeName(t: DeviceType): string
  {
    match t
    case Switch => "switch"
    case Firewall => "firewall"
  }

  /** The device type a string names, if it names one. */
  function ParseDeviceType(s: string): (r: Option<DeviceType>)
    ensures r.Some? <==> s == "switch" || s == "firewall"
    ensures r.Some? ==> DeviceTypeName(r.value) == s
  {
    if s == "switch" then Some(Switch)
    else if s == "firewall" then Some(Firewall)
    else None
  }
}

/** The fixed sample devices every view starts from. */
module MockData {
  import opened Types

  const CoreSw01 := Device("1", "Core-SW-01", Switch, "192.168.1.10", 92,
    "2024-03-10T14:30:00Z", Online, "Cisco", "Catalyst 9300", "Main DC")
  const EdgeFw01 := Device("2", "Edge-FW-01", Firewall, "192.168.1.1", 88,
    "2024-03-10T14:30:00Z", Online, "Palo Alto", "PA-3260", "Main DC")
  const DistSw02 := Device("3", "Dist-SW-02", Switch, "192.168.2.10", 78,
    "2024-03-10T14:15:00Z", Online, "Cisco", "Catalyst 9200", "Branch Office")
  const BranchFw01 := Device("4", "Branch-FW-01", Firewall, "192.168.2.1", 95,
    "2024-03-10T14:00:00Z", Online, "Fortinet", "FortiGate 100F", "Branch Office")

  /** The seed device list, in its original order. */
  const Devices: seq<Device> := [CoreSw01, EdgeFw01, DistSw02, BranchFw01]
}

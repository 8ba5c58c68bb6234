/**
 * The net_mgmt request handlers of supp_mgmt.c: the scan callback that
 * turns a driver report into at most one supplicant event, and the
 * connect handler that builds a profile on the single engine context
 * (wpa_s_0) and enables it without selecting it.
 */
module SuppMgmt {
  import opened SuppTypes
  import opened Engine
  import opened ProfileBuild

  /**
   * scan_result_cb: no interface, no event; no entry, a scan-done event
   * carrying the status; otherwise a scan-result event carrying the entry.
   */
  function ScanResultCb(iface: Option<Device>, status: int, entry: Option<ScanEntry>): (r: Option<Event>)
    ensures r.None? <==> iface.None?
    ensures r.Some? ==> r.value.SuppScanDone? || r.value.SuppScanResult?
    ensures r.Some? ==> r.value.iface == iface.value
    ensures r.Some? && r.value.SuppScanDone? <==> iface.Some? && entry.None?
    ensures r.Some? && r.value.SuppScanDone? ==> r.value.status == status
    ensures r.Some? && r.value.SuppScanResult? ==> entry == Some(r.value.entry)
  {
    if iface.None? then None
    else if entry.None? then Some(SuppScanDone(iface.value, status))
    else Some(SuppScanResult(iface.value, entry.value))
  }

  /**
   * wifi_supp_connect on wpa_s_0. `copied` is whether dup_binstr managed
   * to copy the secret. The profile always gets protection on once the
   * build gets past the secret copy; a failed copy returns -1 before the
   * profile is enabled. Nothing is selected.
   */
  method WifiSuppConnect(wpaS: Supplicant, params: ConnectParams, copied: bool) returns (ret: int)
    requires Buildable(params)
    modifies wpaS`networks, wpaS`filterSsids, wpaS`apScan
    ensures ret in {0, -1}
    ensures
      var built := MgmtProfile(FRESH_PROFILE, params, copied);
      && |wpaS.networks| == |old(wpaS.networks)| + 1
      && wpaS.networks[..|old(wpaS.networks)|] == old(wpaS.networks)
      && var p := wpaS.networks[|old(wpaS.networks)|];
      && fresh(p)
      && wpaS.filterSsids == 1 && wpaS.apScan == 1
      && wpaS.selected == old(wpaS.selected)
      && (ret == 0 <==> built.ok)
      && p.View() == (if built.ok then built.view.(disabled := 0) else built.view)
  {
    var p := wpaS.AddNetwork();
    var ok := Configure(wpaS, p, params, copied);
    if !ok {
      return -1;
    }
    p.ieee80211w := 1;
    wpaS.EnableNetwork(p);
    ret := 0;
  }
}

/**
 * The connection controller of zephyr_supp_api.c: the connect and
 * disconnect requests, which build a profile and hand the shared control
 * block to the worker thread; the worker body, which polls the engine's
 * state once per second within a timeout and reports one outcome; the
 * status snapshot; and the two translation tables it uses.
 *
 * Threads are not modelled. Aborting and restarting the worker
 * (k_thread_abort followed by k_thread_start) is counted in the control
 * block's `launches`, and the worker body is a method run to completion.
 * The engine states the worker observes are a sequence `trace`:
 * StateAt(trace, k) is the state it reads after k sleeps.
 */
module SuppApi {
  import opened SuppTypes
  import opened Engine
  import opened ProfileBuild

  // enum requested_ops
  const CONNECT: int := 0
  const DISCONNECT: int := 1

  /** The shared control block wpa_supp_api_ctrl, written by requests and read by the worker. */
  class ApiCtrl {
    var dev: Option<Device>
    var requestedOp: int
    var connectionTimeout: int
    /** How many times a request aborted and restarted the worker. */
    var launches: nat

    /** Zero-initialised, as the global is; the worker has not been started. */
    constructor ()
      ensures dev == None && requestedOp == CONNECT && connectionTimeout == 0 && launches == 0
      ensures Valid()
    {
      dev, requestedOp, connectionTimeout, launches := None, CONNECT, 0, 0;
    }

    /** Only the two operations are ever requested, and a started worker has a device. */
    predicate Valid()
      reads this
    {
      requestedOp in {CONNECT, DISCONNECT} && (launches > 0 ==> dev.Some?)
    }
  }

  /** The net_mgmt events raised so far, in order. */
  class EventLog {
    var raised: seq<Event>

    constructor ()
      ensures raised == []
    {
      raised := [];
    }
  }

  /** The timeout the connect request hands the worker: the requested one, or 15 when it is not positive. */
  function EffectiveTimeout(timeout: int): (t: int)
    ensures t >= 1
    ensures timeout > 0 ==> t == timeout
    ensures timeout <= 0 ==> t == DEFAULT_CONNECTION_TIMEOUT_S
  {
    if timeout <= 0 then DEFAULT_CONNECTION_TIMEOUT_S else timeout
  }

  /**
   * zephyr_supp_connect. `copied` is whether dup_binstr managed to copy
   * the secret. An unknown device is refused before anything is touched;
   * a failed copy returns -1 with the half-built profile left in the
   * engine, neither enabled nor selected, and the control block untouched.
   */
  method Connect(global: Global, ctrl: ApiCtrl, dev: Device, params: ConnectParams, copied: bool)
    returns (ret: int)
    requires Buildable(params)
    modifies ctrl
    modifies global.HandleSet(dev)`networks, global.HandleSet(dev)`selected
    modifies global.HandleSet(dev)`filterSsids, global.HandleSet(dev)`apScan
    ensures ret in {0, -1}
    ensures ret == 0 ==> ctrl.Valid()
    ensures global.Handle(dev).None? ==> ret == -1 && unchanged(ctrl)
    ensures global.Handle(dev).Some? ==>
      var wpaS := global.Handle(dev).value;
      var built := ApiProfile(FRESH_PROFILE, params, copied);
      && |wpaS.networks| == |old(wpaS.networks)| + 1
      && wpaS.networks[..|old(wpaS.networks)|] == old(wpaS.networks)
      && var p := wpaS.networks[|old(wpaS.networks)|];
      && fresh(p)
      && wpaS.filterSsids == 1 && wpaS.apScan == 1
      && (ret == 0 <==> built.ok)
      && (built.ok ==>
            && p.View() == built.view.(disabled := 0)
            && wpaS.selected == Some(p)
            && ctrl.dev == Some(dev) && ctrl.requestedOp == CONNECT
            && ctrl.connectionTimeout == EffectiveTimeout(params.timeout)
            && ctrl.launches == old(ctrl.launches) + 1)
      && (!built.ok ==>
            && p.View() == built.view
            && wpaS.selected == old(wpaS.selected)
            && unchanged(ctrl))
  {
    var h := global.Handle(dev);
    if h.None? {
      return -1;
    }
    var wpaS := h.value;
    var p := wpaS.AddNetwork();
    var ok := Configure(wpaS, p, params, copied);
    if !ok {
      return -1;
    }
    if params.psk.Some? {
      p.ieee80211w := 1;
    }
    wpaS.EnableNetwork(p);
    wpaS.SelectNetwork(p);

    ctrl.dev := Some(dev);
    ctrl.requestedOp := CONNECT;
    ctrl.connectionTimeout := EffectiveTimeout(params.timeout);
    ctrl.launches := ctrl.launches + 1;
    ret := 0;
  }

  /**
   * zephyr_supp_disconnect: refuses an unknown device untouched;
   * otherwise records a disconnect in the control block (the timeout is
   * left as it was), asks the engine to disconnect and restarts the worker.
   */
  method Disconnect(global: Global, ctrl: ApiCtrl, dev: Device) returns (ret: int)
    modifies ctrl`dev, ctrl`requestedOp, ctrl`launches
    modifies global.HandleSet(dev)`disconnectRequests
    ensures ret in {0, -1}
    ensures ret == 0 ==> ctrl.Valid()
    ensures global.Handle(dev).None? ==> ret == -1 && unchanged(ctrl)
    ensures global.Handle(dev).Some? ==>
      var wpaS := global.Handle(dev).value;
      && ret == 0
      && ctrl.dev == Some(dev) && ctrl.requestedOp == DISCONNECT
      && ctrl.launches == old(ctrl.launches) + 1
      && wpaS.disconnectRequests == old(wpaS.disconnectRequests) + 1
  {
    var h := global.Handle(dev);
    if h.None? {
      return -1;
    }
    ctrl.dev := Some(dev);
    ctrl.requestedOp := DISCONNECT;
    h.value.RequestDisconnection();
    ctrl.launches := ctrl.launches + 1;
    ret := 0;
  }

  /** The engine state the worker reads after `k` sleeps; past the end of the trace the state stays put. */
  function StateAt(trace: seq<int>, k: nat): int
    requires |trace| > 0
  {
    if k < |trace| then trace[k] else trace[|trace| - 1]
  }

  /** The number of sleeps a timeout allows: the timeout itself, or none when it is not positive. */
  function Budget(timeout: int): nat {
    if timeout > 0 then timeout else 0
  }

  /** The engine is seen COMPLETED at one of the polls 0..n. */
  ghost predicate CompletedWithin(trace: seq<int>, n: nat)
    requires |trace| > 0
  {
    exists k: nat :: k <= n && StateAt(trace, k) == WPA_COMPLETED
  }

  /**
   * The loop of supp_shell_connect_status, with its post-incremented
   * counter `i`: the condition reads the state, and only when it is not
   * COMPLETED compares i with the timeout and increments it. `sleeps`
   * counts the passes of the body (one k_msleep each) and `state` is the
   * state the loop last read, which the check after the loop reads again.
   */
  method PollLoop(trace: seq<int>, timeout: int) returns (i: int, sleeps: nat, state: int)
    requires |trace| > 0
    ensures sleeps <= Budget(timeout)
    ensures state == StateAt(trace, sleeps)
    ensures forall k: nat :: k < sleeps ==> StateAt(trace, k) != WPA_COMPLETED
    ensures i == if state == WPA_COMPLETED then sleeps else sleeps + 1
    ensures state == WPA_COMPLETED || sleeps == Budget(timeout)
    ensures (i >= timeout && state != WPA_COMPLETED) <==> !CompletedWithin(trace, Budget(timeout))
  {
    i, sleeps := 0, 0;
    state := StateAt(trace, sleeps);
    var more := state != WPA_COMPLETED && i < timeout;
    if state != WPA_COMPLETED {
      i := i + 1;
    }
    while more
      invariant sleeps <= Budget(timeout)
      invariant state == StateAt(trace, sleeps)
      invariant forall k: nat :: k < sleeps ==> StateAt(trace, k) != WPA_COMPLETED
      invariant i == if state == WPA_COMPLETED then sleeps else sleeps + 1
      invariant more ==> state != WPA_COMPLETED && sleeps < timeout
      invariant !more && state != WPA_COMPLETED ==> sleeps >= timeout
      decreases timeout - sleeps
    {
      // The worker yields, then sleeps one second per pass.
      sleeps := sleeps + 1;
      state := StateAt(trace, sleeps);
      more := state != WPA_COMPLETED && i < timeout;
      if state != WPA_COMPLETED {
        i := i + 1;
      }
    }
    if state == WPA_COMPLETED {
      assert StateAt(trace, sleeps) == WPA_COMPLETED;
    }
  }

  /**
   * The worker body supp_shell_connect_status, on the control block.
   * Unknown device: status 1, reported for a connect. Disconnect: reported
   * with status 0 at once. Connect: poll; if the engine is not COMPLETED
   * when the budget runs out, request a disconnect, whose abort of the
   * running worker ends this body there with status 1, no event and no
   * restart of the worker.
   */
  method ConnectStatus(global: Global, ctrl: ApiCtrl, log: EventLog, trace: seq<int>) returns (status: int)
    requires ctrl.Valid() && ctrl.dev.Some? && |trace| > 0
    modifies ctrl`dev, ctrl`requestedOp, log
    modifies global.HandleSet(ctrl.dev.value)`disconnectRequests
    ensures status in {0, 1}
    ensures
      var dev := old(ctrl.dev.value);
      var op := old(ctrl.requestedOp);
      if global.Handle(dev).None? then
        && status == 1 && unchanged(ctrl)
        && log.raised == old(log.raised) +
             [if op == CONNECT then WifiConnectResult(dev, 1) else WifiDisconnectResult(dev, 0)]
      else
        var wpaS := global.Handle(dev).value;
        if op == DISCONNECT then
          && status == 0 && unchanged(ctrl)
          && wpaS.disconnectRequests == old(wpaS.disconnectRequests)
          && log.raised == old(log.raised) + [WifiDisconnectResult(dev, 0)]
        else if CompletedWithin(trace, Budget(old(ctrl.connectionTimeout))) then
          && status == 0 && unchanged(ctrl)
          && wpaS.disconnectRequests == old(wpaS.disconnectRequests)
          && log.raised == old(log.raised) + [WifiConnectResult(dev, 0)]
        else
          && status == 1
          && wpaS.disconnectRequests == old(wpaS.disconnectRequests) + 1
          && ctrl.dev == Some(dev) && ctrl.requestedOp == DISCONNECT
          && ctrl.connectionTimeout == old(ctrl.connectionTimeout)
          && ctrl.launches == old(ctrl.launches)
          && log.raised == old(log.raised)
  {
    var dev := ctrl.dev.value;
    status := 0;
    var h := global.Handle(dev);
    if h.None? {
      status := 1;
    } else if ctrl.requestedOp == CONNECT {
      var i, sleeps, state := PollLoop(trace, ctrl.connectionTimeout);
      if i >= ctrl.connectionTimeout {
        if state != WPA_COMPLETED {
          // zephyr_supp_disconnect from inside the worker: it records the
          // disconnect and asks the engine for it, then aborts the thread
          // it runs on, so neither its restart of the worker nor the rest
          // of this body runs.
          ctrl.dev := Some(dev);
          ctrl.requestedOp := DISCONNECT;
          h.value.RequestDisconnection();
          return 1;
        }
      }
    }
    if ctrl.requestedOp == CONNECT {
      log.raised := log.raised + [WifiConnectResult(dev, status)];
    } else if ctrl.requestedOp == DISCONNECT {
      log.raised := log.raised + [WifiDisconnectResult(dev, 0)];
    }
  }

  /** wpas_band_to_zephyr: the two known engine bands, -1 for any other. */
  function BandToZephyr(band: int): (r: int)
    ensures r == WIFI_FREQ_BAND_2_4_GHZ <==> band == BAND_2_4_GHZ
    ensures r == WIFI_FREQ_BAND_5_GHZ <==> band == BAND_5_GHZ
    ensures r == -1 <==> band !in {BAND_2_4_GHZ, BAND_5_GHZ}
  {
    match band
    case 1 => WIFI_FREQ_BAND_2_4_GHZ
    case 2 => WIFI_FREQ_BAND_5_GHZ
    case _ => -1
  }

  /** wpas_key_mgmt_to_zephyr: the four key-management values the builders use, -1 for any other. */
  function KeyMgmtToZephyr(keyMgmt: int): (r: int)
    ensures r == WIFI_SECURITY_TYPE_NONE <==> keyMgmt == WPA_KEY_MGMT_NONE
    ensures r == WIFI_SECURITY_TYPE_PSK <==> keyMgmt == WPA_KEY_MGMT_PSK
    ensures r == WIFI_SECURITY_TYPE_PSK_SHA256 <==> keyMgmt == WPA_KEY_MGMT_PSK_SHA256
    ensures r == WIFI_SECURITY_TYPE_SAE <==> keyMgmt == WPA_KEY_MGMT_SAE
    ensures r == -1 <==>
      keyMgmt !in {WPA_KEY_MGMT_NONE, WPA_KEY_MGMT_PSK, WPA_KEY_MGMT_PSK_SHA256, WPA_KEY_MGMT_SAE}
  {
    match keyMgmt
    case 4 => WIFI_SECURITY_TYPE_NONE
    case 2 => WIFI_SECURITY_TYPE_PSK
    case 256 => WIFI_SECURITY_TYPE_PSK_SHA256
    case 1024 => WIFI_SECURITY_TYPE_SAE
    case _ => -1
  }

  /** The security type a request asks for: none without a psk, 2 and 3 as given, PSK otherwise. */
  function RequestedSecurity(params: ConnectParams): int {
    if params.psk.None? then WIFI_SECURITY_TYPE_NONE
    else if params.security == 3 || params.security == 2 then params.security
    else WIFI_SECURITY_TYPE_PSK
  }

  /**
   * Round trip through both tables: the status of a profile the connect
   * request built reports back the security the request asked for.
   */
  lemma SecurityRoundTrip(params: ConnectParams, copied: bool)
    requires Buildable(params)
    ensures KeyMgmtToZephyr(ApiProfile(FRESH_PROFILE, params, copied).view.keyMgmt) == RequestedSecurity(params)
  {
    var km := ApiProfile(FRESH_PROFILE, params, copied).view.keyMgmt;
    if params.psk.Some? {
      assert km == KeyedMgmt(params.security);
    }
  }

  /** struct wifi_iface_status. The SSID holds the ssidLen bytes copied into the zeroed buffer. */
  datatype IfaceStatus = IfaceStatus(
    state: int,
    ssid: seq<byte>,
    ssidLen: nat,
    bssid: seq<byte>,
    band: int,
    channel: int,
    ifaceMode: int,
    linkMode: int,
    security: int,
    mfp: int,
    rssi: int)

  /** A freshly zero-allocated status. */
  const ZERO_STATUS: IfaceStatus := IfaceStatus(0, [], 0, [0, 0, 0, 0, 0, 0], 0, 0, 0, 0, 0, 0, 0)

  /**
   * What the driver and the engine's helpers answer when the snapshot asks
   * them: wpas_freq_to_band and ieee80211_freq_to_chan of the association
   * frequency, wpa_drv_get_ssid (return value and buffer) and
   * wpa_drv_signal_poll (return value and current signal).
   */
  datatype DriverAnswers = DriverAnswers(
    band: int,
    channel: byte,
    ssidRet: int,
    ssidBuf: seq<byte>,
    pollRet: int,
    signal: int)

  /** The SSID bytes the snapshot reports for a profile: its own, or the driver's when it stores none. */
  function ReportedSsid(p: ProfileView, drv: DriverAnswers): (s: seq<byte>)
    requires p.ssidLen <= |p.ssid| && drv.ssidRet <= |drv.ssidBuf|
    ensures p.ssidLen > 0 ==> s == p.ssid[..p.ssidLen]
    ensures p.ssidLen == 0 && drv.ssidRet < 0 ==> s == []
    ensures p.ssidLen == 0 && drv.ssidRet >= 0 ==> s == drv.ssidBuf[..drv.ssidRet]
  {
    if p.ssidLen != 0 then p.ssid[..p.ssidLen]
    else if drv.ssidRet < 0 then []
    else drv.ssidBuf[..drv.ssidRet]
  }

  /**
   * zephyr_supp_status. `allocOk` is whether os_zalloc succeeded. The
   * state is always reported; the association fields stay zero below
   * WPA_ASSOCIATED; the signal is taken only when the poll returns 0.
   */
  method Status(global: Global, dev: Device, allocOk: bool, drv: DriverAnswers) returns (r: Option<IfaceStatus>)
    requires drv.ssidRet <= |drv.ssidBuf|
    requires global.Handle(dev).Some? && global.Handle(dev).value.wpaState >= WPA_ASSOCIATED ==>
      var wpaS := global.Handle(dev).value;
      && |wpaS.bssid| >= 6
      && wpaS.currentSsid.Some? && wpaS.currentSsid.value.Valid()
    ensures r.None? <==> global.Handle(dev).None? || !allocOk
    ensures r.Some? ==>
      var wpaS := global.Handle(dev).value;
      && r.value.state == wpaS.wpaState
      && (wpaS.wpaState < WPA_ASSOCIATED ==> r.value == ZERO_STATUS.(state := wpaS.wpaState))
      && (wpaS.wpaState >= WPA_ASSOCIATED ==>
            var p := wpaS.currentSsid.value.View();
            && r.value.bssid == wpaS.bssid[..6]
            && r.value.band == BandToZephyr(drv.band)
            && r.value.security == KeyMgmtToZephyr(p.keyMgmt)
            && r.value.mfp == p.ieee80211w
            && r.value.channel == drv.channel
            && r.value.ssid == ReportedSsid(p, drv)
            && r.value.ssidLen == |r.value.ssid|
            && r.value.ifaceMode == p.mode
            && r.value.linkMode == WIFI_6
            && r.value.rssi == (if drv.pollRet == 0 then drv.signal else 0))
  {
    var h := global.Handle(dev);
    if h.None? {
      return None;
    }
    if !allocOk {
      return None;
    }
    var wpaS := h.value;
    var status := ZERO_STATUS;
    status := status.(state := wpaS.wpaState);
    if wpaS.wpaState >= WPA_ASSOCIATED {
      var ssid := wpaS.currentSsid.value;
      status := status.(bssid := wpaS.bssid[..6]);
      status := status.(band := BandToZephyr(drv.band));
      status := status.(security := KeyMgmtToZephyr(ssid.keyMgmt));
      status := status.(mfp := ssid.ieee80211w);
      status := status.(channel := drv.channel);

      var src, len := ssid.ssid, ssid.ssidLen;
      if len == 0 {
        if drv.ssidRet < 0 {
          len := 0;
        } else {
          len := drv.ssidRet;
        }
        src := drv.ssidBuf;
      }
      status := status.(ssid := src[..len], ssidLen := len);
      status := status.(ifaceMode := ssid.mode);
      status := status.(linkMode := WIFI_6);
      if drv.pollRet == 0 {
        status := status.(rssi := drv.signal);
      }
    }
    r := Some(status);
  }

  /**
   * A client of the controller: a PSK request on "wlan0" whose engine
   * reaches COMPLETED after three sleeps builds a PSK profile, and the
   * worker reports one successful connect result.
   */
  method CompletedScenario() returns (ret: int, status: int, keyMgmt: int, events: seq<Event>)
    ensures ret == 0 && status == 0 && keyMgmt == WPA_KEY_MGMT_PSK
    ensures events == [WifiConnectResult(Device("wlan0"), 0)]
  {
    var wpaS := new Supplicant(WPA_DISCONNECTED);
    var global := new Global(map["wlan0" := wpaS]);
    var ctrl := new ApiCtrl();
    var log := new EventLog();
    var dev := Device("wlan0");
    var params := ConnectParams([104, 111, 109, 101], 4, Some([108, 111, 110, 103, 112, 97, 115, 115]), 8,
                                0, WIFI_SECURITY_TYPE_PSK, 0);
    ret := Connect(global, ctrl, dev, params, true);
    keyMgmt := wpaS.networks[0].keyMgmt;
    var trace := [WPA_SCANNING, WPA_ASSOCIATED, 7, WPA_COMPLETED];
    assert ctrl.connectionTimeout == DEFAULT_CONNECTION_TIMEOUT_S;
    assert StateAt(trace, 3) == WPA_COMPLETED;
    status := ConnectStatus(global, ctrl, log, trace);
    events := log.raised;
  }

  /**
   * A client of the controller: an open request with timeout 2 whose
   * engine never leaves SCANNING ends with status 1 and one disconnect
   * request to the engine, and the aborted worker reports nothing.
   */
  method TimeoutScenario() returns (ret: int, status: int, disconnects: nat, events: seq<Event>)
    ensures ret == 0 && status == 1 && disconnects == 1 && events == []
  {
    var wpaS := new Supplicant(WPA_DISCONNECTED);
    var global := new Global(map["wlan0" := wpaS]);
    var ctrl := new ApiCtrl();
    var log := new EventLog();
    var params := ConnectParams([103, 104, 111, 115, 116], 5, None, 0, 0, WIFI_SECURITY_TYPE_NONE, 2);
    ret := Connect(global, ctrl, Device("wlan0"), params, true);
    assert ctrl.connectionTimeout == 2;
    status := ConnectStatus(global, ctrl, log, [WPA_SCANNING]);
    disconnects := wpaS.disconnectRequests;
    events := log.raised;
  }
}

/**
 * The profile-building steps that zephyr_supp_connect and
 * wifi_supp_connect share: copy the SSID into a zeroed 32-byte buffer,
 * mark the profile disabled, set the scan flags, map the requested
 * security to a key-management value and copy the secret. The two
 * builders differ only in when they turn management-frame protection on,
 * which ApiProfile and MgmtProfile pin down.
 */
module ProfileBuild {
  import opened SuppTypes
  import opened Engine

  /** What a builder produced: whether it got past the secret copy, and the profile. */
  datatype BuildOutcome = BuildOutcome(ok: bool, view: ProfileView)

  /** A request a builder can take: the SSID fits the 32-byte buffer it is copied into. */
  predicate Buildable(params: ConnectParams) {
    params.Valid() && params.ssidLength <= MAX_SSID_LEN
  }

  /** The zeroed SSID buffer with the request's SSID bytes copied to its front. */
  function SsidBuffer(params: ConnectParams): (buf: seq<byte>)
    requires Buildable(params)
    ensures |buf| == MAX_SSID_LEN
    ensures buf[..params.ssidLength] == params.ssid[..params.ssidLength]
    ensures forall k :: params.ssidLength <= k < MAX_SSID_LEN ==> buf[k] == 0
  {
    params.ssid[..params.ssidLength] + seq(MAX_SSID_LEN - params.ssidLength, _ => 0)
  }

  /** The key-management value the request selects once a psk is given. */
  function KeyedMgmt(security: int): (km: int)
    ensures km in {WPA_KEY_MGMT_SAE, WPA_KEY_MGMT_PSK_SHA256, WPA_KEY_MGMT_PSK}
    ensures km == WPA_KEY_MGMT_SAE <==> security == 3
    ensures km == WPA_KEY_MGMT_PSK_SHA256 <==> security == 2
  {
    if security == 3 then WPA_KEY_MGMT_SAE
    else if security == 2 then WPA_KEY_MGMT_PSK_SHA256
    else WPA_KEY_MGMT_PSK
  }

  /**
   * The shared steps applied to a profile `init`: `copied` is whether
   * duplicating the secret succeeded (consulted only when a psk is given).
   */
  function Configured(init: ProfileView, params: ConnectParams, copied: bool): (r: BuildOutcome)
    requires Buildable(params)
    ensures r.ok <==> params.psk.None? || copied
    ensures r.view.ssidLen == params.ssidLength && r.view.ssid == SsidBuffer(params)
    ensures r.view.disabled == 1
    ensures params.psk.None? ==> r.view.keyMgmt == WPA_KEY_MGMT_NONE && r.view == init.(
      ssid := r.view.ssid, ssidLen := r.view.ssidLen, disabled := 1, keyMgmt := WPA_KEY_MGMT_NONE)
    ensures params.psk.Some? ==> r.view.keyMgmt == KeyedMgmt(params.security)
    ensures params.psk.Some? && params.security == 3 ==>
      && r.view.passphrase == init.passphrase
      && r.view.saePassword == (if copied then Some(params.Secret()) else None)
    ensures params.psk.Some? && params.security != 3 ==>
      && r.view.saePassword == init.saePassword
      && r.view.passphrase == (if copied then Some(params.Secret()) else None)
    ensures r.view.pskSet == ((r.ok && params.psk.Some?) || init.pskSet)
    ensures r.view.ieee80211w == init.ieee80211w && r.view.mode == init.mode
  {
    var base := init.(ssid := SsidBuffer(params), ssidLen := params.ssidLength,
                      disabled := 1, keyMgmt := WPA_KEY_MGMT_NONE);
    if params.psk.None? then
      BuildOutcome(true, base)
    else
      var secret := if copied then Some(params.Secret()) else None;
      var keyed :=
        if params.security == 3 then base.(keyMgmt := WPA_KEY_MGMT_SAE, saePassword := secret)
        else base.(keyMgmt := KeyedMgmt(params.security), passphrase := secret);
      if copied then BuildOutcome(true, keyed.(pskSet := true)) else BuildOutcome(false, keyed)
  }

  /**
   * zephyr_supp_connect's profile: protection (ieee80211w = 1) is turned
   * on only inside the psk branch, after a successful secret copy; an open
   * profile keeps the engine's default.
   */
  function ApiProfile(init: ProfileView, params: ConnectParams, copied: bool): (r: BuildOutcome)
    requires Buildable(params)
    ensures r.ok == Configured(init, params, copied).ok
    ensures r.view.ieee80211w == (if r.ok && params.psk.Some? then 1 else init.ieee80211w)
    ensures r.view == Configured(init, params, copied).view.(ieee80211w := r.view.ieee80211w)
  {
    var c := Configured(init, params, copied);
    if c.ok && params.psk.Some? then c.(view := c.view.(ieee80211w := 1)) else c
  }

  /**
   * wifi_supp_connect's profile: protection is turned on after the psk
   * branch whenever the build got that far, open networks included.
   */
  function MgmtProfile(init: ProfileView, params: ConnectParams, copied: bool): (r: BuildOutcome)
    requires Buildable(params)
    ensures r.ok == Configured(init, params, copied).ok
    ensures r.view.ieee80211w == (if r.ok then 1 else init.ieee80211w)
    ensures r.view == Configured(init, params, copied).view.(ieee80211w := r.view.ieee80211w)
  {
    var c := Configured(init, params, copied);
    if c.ok then c.(view := c.view.(ieee80211w := 1)) else c
  }

  /**
   * The two builders agree on every request that carries a psk; on an
   * open request they differ in ieee80211w alone.
   */
  lemma BuildersDifferOnlyInOpenPmf(init: ProfileView, params: ConnectParams, copied: bool)
    requires Buildable(params)
    ensures params.psk.Some? ==> MgmtProfile(init, params, copied) == ApiProfile(init, params, copied)
    ensures params.psk.None? ==>
      && ApiProfile(init, params, copied).view.ieee80211w == init.ieee80211w
      && MgmtProfile(init, params, copied).view.ieee80211w == 1
      && MgmtProfile(init, params, copied) ==
         ApiProfile(init, params, copied).(view := ApiProfile(init, params, copied).view.(ieee80211w := 1))
  {
  }

  /**
   * Lines shared by both builders, applied in place to a profile just
   * added to `wpaS`: the SSID copy, the disabled mark, the scan flags and
   * the psk branch up to and including wpa_config_update_psk. It stops
   * with ok == false where the source returns -1.
   */
  method Configure(wpaS: Supplicant, p: Profile, params: ConnectParams, copied: bool) returns (ok: bool)
    requires Buildable(params)
    modifies p, wpaS`filterSsids, wpaS`apScan
    ensures ok == Configured(old(p.View()), params, copied).ok
    ensures p.View() == Configured(old(p.View()), params, copied).view
    ensures p.Valid()
    ensures wpaS.filterSsids == 1 && wpaS.apScan == 1
  {
    p.ssid := seq(MAX_SSID_LEN, _ => 0);
    p.ssid := params.ssid[..params.ssidLength] + p.ssid[params.ssidLength..];
    p.ssidLen := params.ssidLength;
    p.disabled := 1;
    p.keyMgmt := WPA_KEY_MGMT_NONE;

    wpaS.filterSsids := 1;
    wpaS.apScan := 1;

    ok := true;
    if params.psk.Some? {
      if params.security == 3 {
        p.keyMgmt := WPA_KEY_MGMT_SAE;
        p.saePassword := None;
        if !copied {
          return false;
        }
        p.saePassword := Some(params.Secret());
      } else {
        if params.security == 2 {
          p.keyMgmt := WPA_KEY_MGMT_PSK_SHA256;
        } else {
          p.keyMgmt := WPA_KEY_MGMT_PSK;
        }
        p.passphrase := None;
        if !copied {
          return false;
        }
        p.passphrase := Some(params.Secret());
      }
      UpdatePsk(p);
    }
  }
}

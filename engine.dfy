/**
 * The protocol engine as this glue sees it: a network profile
 * (struct wpa_ssid), the per-interface engine context (struct
 * wpa_supplicant with its configuration flags) and the global registry
 * the glue looks interfaces up in. The engine calls the glue makes are
 * abstract collaborators here: each is reduced to the one field it is
 * observed to change.
 */
module Engine {
  import opened SuppTypes

  /** The observable fields of a network profile, as a value. */
  datatype ProfileView = ProfileView(
    ssid: seq<byte>,
    ssidLen: nat,
    disabled: int,
    keyMgmt: int,
    passphrase: Option<seq<byte>>,
    saePassword: Option<seq<byte>>,
    pskSet: bool,
    ieee80211w: int,
    mode: int)

  // Defaults the engine gives a new profile (wpa_config_set_network_defaults,
  // which is not part of this model); the glue only ever keeps or overwrites them.
  const DEFAULT_KEY_MGMT: int := 3
  const DEFAULT_IEEE80211W: int := 3

  /** The fields a profile has when the engine hands it out. */
  const FRESH_PROFILE: ProfileView :=
    ProfileView([], 0, 1, DEFAULT_KEY_MGMT, None, None, false, DEFAULT_IEEE80211W, 0)

  /** A network profile inside the engine (struct wpa_ssid). */
  class Profile {
    var ssid: seq<byte>
    var ssidLen: nat
    var disabled: int
    var keyMgmt: int
    var passphrase: Option<seq<byte>>
    var saePassword: Option<seq<byte>>
    var pskSet: bool
    var ieee80211w: int
    var mode: int

    function View(): ProfileView
      reads this
    {
      ProfileView(ssid, ssidLen, disabled, keyMgmt, passphrase, saePassword, pskSet, ieee80211w, mode)
    }

    /** The stored SSID length never runs past the stored buffer. */
    predicate Valid()
      reads this
    {
      ssidLen <= |ssid|
    }

    constructor ()
      ensures View() == FRESH_PROFILE
    {
      ssid, ssidLen, disabled, keyMgmt := [], 0, 1, DEFAULT_KEY_MGMT;
      passphrase, saePassword, pskSet := None, None, false;
      ieee80211w, mode := DEFAULT_IEEE80211W, 0;
    }
  }

  /** The engine context of one interface (struct wpa_supplicant and its conf). */
  class Supplicant {
    /** Profiles in the order wpa_supplicant_add_network created them. */
    var networks: seq<Profile>
    /** The profile last passed to wpa_supplicant_select_network. */
    var selected: Option<Profile>
    /** How many times wpas_request_disconnection was called. */
    var disconnectRequests: nat
    var filterSsids: int
    var apScan: int
    var wpaState: int
    var currentSsid: Option<Profile>
    var bssid: seq<byte>
    var assocFreq: int

    constructor (state: int)
      ensures networks == [] && selected == None && disconnectRequests == 0
      ensures wpaState == state && currentSsid == None
    {
      networks, selected, disconnectRequests := [], None, 0;
      filterSsids, apScan, wpaState := 0, 0, state;
      currentSsid, bssid, assocFreq := None, [0, 0, 0, 0, 0, 0], 0;
    }

    /** wpa_supplicant_add_network: a fresh profile with the engine defaults, appended. */
    method AddNetwork() returns (p: Profile)
      modifies this`networks
      ensures fresh(p) && p.View() == FRESH_PROFILE
      ensures networks == old(networks) + [p]
    {
      p := new Profile();
      networks := networks + [p];
    }

    /** wpa_supplicant_enable_network on one profile: it is no longer disabled. */
    method EnableNetwork(p: Profile)
      modifies p`disabled
      ensures p.disabled == 0
    {
      p.disabled := 0;
    }

    /** wpa_supplicant_select_network: the profile becomes the selected one. */
    method SelectNetwork(p: Profile)
      modifies this`selected
      ensures selected == Some(p)
    {
      selected := Some(p);
    }

    /** wpas_request_disconnection, counted. */
    method RequestDisconnection()
      modifies this`disconnectRequests
      ensures disconnectRequests == old(disconnectRequests) + 1
    {
      disconnectRequests := disconnectRequests + 1;
    }
  }

  /** wpa_config_update_psk: the engine derives the PSK from the stored secret. */
  method UpdatePsk(p: Profile)
    modifies p`pskSet
    ensures p.pskSet
  {
    p.pskSet := true;
  }

  /** The engine's global context: interfaces by device name. */
  class Global {
    var ifaces: map<string, Supplicant>

    constructor (ifaces: map<string, Supplicant>)
      ensures this.ifaces == ifaces
    {
      this.ifaces := ifaces;
    }

    /** get_wpa_s_handle: the engine context registered under the device's name, if any. */
    function Handle(dev: Device): (r: Option<Supplicant>)
      reads this
      ensures r.Some? <==> dev.name in ifaces
      ensures r.Some? ==> r.value == ifaces[dev.name]
    {
      if dev.name in ifaces then Some(ifaces[dev.name]) else None
    }

    /** The engine contexts a request on `dev` may change: the one it resolves to. */
    function HandleSet(dev: Device): set<Supplicant>
      reads this
    {
      if dev.name in ifaces then {ifaces[dev.name]} else {}
    }
  }
}

/**
 * Values and constants shared by the connection controller, the
 * management request handlers and the shell: bytes, the connect request
 * record, the engine's key-management and state codes, and the network
 * management events the three raise or consume.
 */
module SuppTypes {

  datatype Option<+T> = None | Some(value: T)

  /** One octet, as the C code's u8 / uint8_t / char. */
  type byte = x: int | 0 <= x < 256

  /** Truncation of a C integer into a uint8_t field. */
  function ToU8(x: int): (r: byte)
    ensures 0 <= x < 256 ==> r == x
    ensures x >= 0 ==> r <= x
  {
    x % 256
  }

  /** Size of the zeroed SSID buffer the profile builders allocate. */
  const MAX_SSID_LEN: nat := 32

  /** Connection timeout (in one-second polls) used when the request gives none. */
  const DEFAULT_CONNECTION_TIMEOUT_S: int := 15

  // Engine key-management bits (WPA_KEY_MGMT_*, hostap common/defs.h).
  const WPA_KEY_MGMT_PSK: int := 2
  const WPA_KEY_MGMT_NONE: int := 4
  const WPA_KEY_MGMT_PSK_SHA256: int := 256
  const WPA_KEY_MGMT_SAE: int := 1024

  // Zephyr's wifi_security_type values; the builders compare with 2 and 3 literally.
  const WIFI_SECURITY_TYPE_NONE: int := 0
  const WIFI_SECURITY_TYPE_PSK: int := 1
  const WIFI_SECURITY_TYPE_PSK_SHA256: int := 2
  const WIFI_SECURITY_TYPE_SAE: int := 3

  // Engine radio bands (enum wpa_radio_work_band) and Zephyr's wifi_frequency_bands.
  const BAND_2_4_GHZ: int := 1
  const BAND_5_GHZ: int := 2
  const WIFI_FREQ_BAND_2_4_GHZ: int := 0
  const WIFI_FREQ_BAND_5_GHZ: int := 1

  /** "Any channel" marker of a connect request. */
  const WIFI_CHANNEL_ANY: int := 255

  /** Link mode the status snapshot always reports. */
  const WIFI_6: int := 6

  // The ordered engine connection states (enum wpa_states).
  const WPA_DISCONNECTED: int := 0
  const WPA_SCANNING: int := 3
  const WPA_ASSOCIATED: int := 6
  const WPA_COMPLETED: int := 9

  /** A C string: its bytes stop at the first NUL, so strlen is its length. */
  predicate CString(s: seq<byte>) {
    forall k :: 0 <= k < |s| ==> s[k] != 0
  }

  // errno values returned by the shell.
  const ENOEXEC: int := 8
  const EINVAL: int := 22

  /** A device, known to the engine by its name. */
  datatype Device = Device(name: string)

  /**
   * wifi_connect_req_params: the SSID and PSK are buffers together with
   * the byte counts the builders copy out of them; a psk of None is the
   * NULL pointer.
   */
  datatype ConnectParams = ConnectParams(
    ssid: seq<byte>,
    ssidLength: byte,
    psk: Option<seq<byte>>,
    pskLength: byte,
    channel: byte,
    security: int,
    timeout: int)
  {
    /** The byte counts never run past the buffers they describe. */
    predicate Valid() {
      ssidLength <= |ssid| && (psk.Some? ==> pskLength <= |psk.value|)
    }

    /** The key material a profile builder copies out of the request. */
    function Secret(): (s: seq<byte>)
      requires Valid() && psk.Some?
      ensures |s| == pskLength
    {
      psk.value[..pskLength]
    }
  }

  /** A scan result entry as delivered by the driver (passed through untouched). */
  datatype ScanEntry = ScanEntry(ssid: seq<byte>, channel: int, rssi: int, security: int)

  /**
   * The network management events of this subsystem. The three Supp*
   * events are the supplicant's own; the Wifi* results are the ones the
   * connection worker raises through Zephyr's Wi-Fi layer; Other stands
   * for any further event code.
   */
  datatype Event =
    | SuppScanResult(iface: Device, entry: ScanEntry)
    | SuppScanDone(iface: Device, status: int)
    | SuppConnectResult(iface: Device, status: int)
    | WifiConnectResult(iface: Device, status: int)
    | WifiDisconnectResult(iface: Device, status: int)
    | Other(code: int)
}

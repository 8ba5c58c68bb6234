/**
 * The wpa_supp shell of supp_shell.c: the positional parser that fills
 * the static connect request, the scan-result counter and the
 * connecting/disconnecting flags its event handlers keep, the connect
 * command and the init hook. Console output is reduced to what decides
 * it (a header row, a warning).
 *
 * Arguments are C strings (byte sequences without NUL). strtol is
 * modelled for the inputs the parser gives it: strings of at most two
 * bytes, base 10.
 */
module SuppShell {
  import opened SuppTypes
  import opened Engine
  import opened ProfileBuild
  import SuppMgmt

  const UINT32_LIMIT: int := 0x1_0000_0000

  const SPACE: byte := 32
  const PLUS: byte := 43
  const MINUS: byte := 45
  const ZERO_DIGIT: byte := 48

  /** isspace in the C locale. */
  predicate IsSpace(b: byte) {
    b == SPACE || 9 <= b <= 13
  }

  predicate IsDigit(b: byte) {
    ZERO_DIGIT <= b <= ZERO_DIGIT + 9
  }

  predicate AllDigits(s: seq<byte>) {
    forall k :: 0 <= k < |s| ==> IsDigit(s[k])
  }

  /** The byte at index i of a C string, the terminating NUL at its end. */
  function At(s: seq<byte>, i: nat): byte {
    if i < |s| then s[i] else 0
  }

  /** How many whitespace bytes s starts with. */
  function LeadingSpaces(s: seq<byte>): (n: nat)
    ensures n <= |s|
    ensures forall k :: 0 <= k < n ==> IsSpace(s[k])
    ensures n < |s| ==> !IsSpace(s[n])
  {
    if |s| > 0 && IsSpace(s[0]) then 1 + LeadingSpaces(s[1..]) else 0
  }

  /** How many decimal digits s starts with. */
  function LeadingDigits(s: seq<byte>): (n: nat)
    ensures n <= |s|
    ensures AllDigits(s[..n])
    ensures n < |s| ==> !IsDigit(s[n])
  {
    if |s| > 0 && IsDigit(s[0]) then 1 + LeadingDigits(s[1..]) else 0
  }

  /** The value of a run of decimal digits, most significant first. */
  function DecimalValue(ds: seq<byte>): nat
    requires AllDigits(ds)
  {
    if ds == [] then 0 else DecimalValue(ds[..|ds| - 1]) * 10 + (ds[|ds| - 1] - ZERO_DIGIT)
  }

  /** What strtol returns and where it leaves endptr (as an index). */
  datatype Conversion = Conversion(value: int, end: nat)

  /**
   * strtol(s, &endptr, 10) on a string of at most two bytes: leading
   * whitespace, an optional sign, then digits. With no digit nothing is
   * converted: the value is 0 and endptr is s itself.
   */
  function Strtol(s: seq<byte>): (r: Conversion)
    requires |s| <= 2
    ensures r.end <= |s|
    ensures r.end == 0 ==> r.value == 0
    ensures |s| > 0 && AllDigits(s) ==> r == Conversion(DecimalValue(s), |s|)
    ensures |s| > 0 && IsDigit(s[0]) && !IsDigit(s[|s| - 1]) ==> r.end < |s|
    ensures -9 <= r.value <= 99
    // a digit then a non-digit: the digit alone is converted
    ensures |s| == 2 && IsDigit(s[0]) && !IsDigit(s[1]) ==> r == Conversion(s[0] - ZERO_DIGIT, 1)
    // whitespace or a plus sign before one digit: the digit is converted, all of s consumed
    ensures |s| == 2 && (IsSpace(s[0]) || s[0] == PLUS) && IsDigit(s[1]) ==>
      r == Conversion(s[1] - ZERO_DIGIT, 2)
    // a minus sign before one digit: its negation, all of s consumed
    ensures |s| == 2 && s[0] == MINUS && IsDigit(s[1]) ==> r == Conversion(-(s[1] - ZERO_DIGIT), 2)
    // no digit after the optional whitespace and sign: nothing converted
    ensures (|s| == 0 || !IsDigit(s[0])) &&
            !(|s| == 2 && (IsSpace(s[0]) || s[0] == PLUS || s[0] == MINUS) && IsDigit(s[1])) ==>
      r == Conversion(0, 0)
  {
    var ws := LeadingSpaces(s);
    var rest := s[ws..];
    var signed := |rest| > 0 && (rest[0] == PLUS || rest[0] == MINUS);
    var digits := if signed then rest[1..] else rest;
    var n := LeadingDigits(digits);
    if n == 0 then
      Conversion(0, 0)
    else
      DigitsBelow100(digits[..n]);
      assert ws == 0 && !signed ==> digits == s;
      var v: int := DecimalValue(digits[..n]);
      Conversion(if signed && rest[0] == MINUS then -v else v, ws + (if signed then 1 else 0) + n)
  }

  lemma DigitsBelow100(ds: seq<byte>)
    requires AllDigits(ds) && |ds| <= 2
    ensures DecimalValue(ds) <= (if |ds| == 2 then 99 else 9)
  {
    if |ds| == 2 {
      assert ds[..1][..0] == [];
    }
  }

  /** The request fields the shell fills: the static cnx_params of cmd_supplicant_connect. */
  class CnxParams {
    var ssid: seq<byte>
    var ssidLength: byte
    var psk: Option<seq<byte>>
    var pskLength: byte
    var channel: byte
    var security: int
    var timeout: int

    function Value(): ConnectParams
      reads this
    {
      ConnectParams(ssid, ssidLength, psk, pskLength, channel, security, timeout)
    }

    /** Zero-initialised, as a static is. */
    constructor ()
      ensures Value() == ConnectParams([], 0, None, 0, 0, 0, 0)
    {
      ssid, ssidLength, psk, pskLength := [], 0, None, 0;
      channel, security, timeout := 0, 0, 0;
    }
  }

  /** A channel argument is read when a second argument is there and is at most two bytes long. */
  predicate ChannelGiven(argv: seq<seq<byte>>) {
    1 < |argv| && |argv[1]| <= 2
  }

  /** Where the psk argument is looked for: after the channel when one was read. */
  function PskIndex(argv: seq<seq<byte>>): nat {
    if ChannelGiven(argv) then 2 else 1
  }

  datatype ParseResult = ParseResult(ret: int, params: ConnectParams)

  /**
   * __wifi_args_to_params applied to the request `prev`: fields it does
   * not reach keep their values (it is a static reused across commands).
   */
  function ParseArgs(argv: seq<seq<byte>>, prev: ConnectParams): (r: ParseResult)
    requires forall a :: a in argv ==> CString(a)
    ensures r.ret in {0, -EINVAL}
    ensures r.ret == -EINVAL <==>
      |argv| < 1 || (ChannelGiven(argv) && Strtol(argv[1]).end < |argv[1]|)
    ensures |argv| < 1 ==> r.params == prev
    ensures prev.Valid() ==> r.params.Valid()
    ensures r.params.timeout == prev.timeout
    ensures |argv| >= 1 ==> r.params.ssid == argv[0] && r.params.ssidLength == ToU8(|argv[0]|)
    // the channel
    ensures r.ret == 0 && !ChannelGiven(argv) ==> r.params.channel == WIFI_CHANNEL_ANY
    ensures r.ret == 0 && ChannelGiven(argv) ==>
      var c := ToU8(Strtol(argv[1]).value);
      r.params.channel == if c == 0 then WIFI_CHANNEL_ANY else c
    ensures ChannelGiven(argv) && |argv[1]| > 0 && AllDigits(argv[1]) ==>
      var v := DecimalValue(argv[1]);
      r.ret == 0 && r.params.channel == if v == 0 then WIFI_CHANNEL_ANY else v
    // the psk and security
    ensures r.ret == 0 && PskIndex(argv) < |argv| ==>
      var k := PskIndex(argv);
      && r.params.psk == Some(argv[k]) && r.params.pskLength == ToU8(|argv[k]|)
      && r.params.security ==
           if k + 1 < |argv| && |argv[k + 1]| <= 2 then Strtol(argv[k + 1]).value
           else WIFI_SECURITY_TYPE_PSK
    ensures r.ret == 0 && PskIndex(argv) >= |argv| ==>
      && r.params.security == WIFI_SECURITY_TYPE_NONE
      && r.params.psk == prev.psk && r.params.pskLength == prev.pskLength
    ensures r.ret != 0 ==> r.params.psk == prev.psk && r.params.security == prev.security
    // a bad channel fails after the SSID and the truncated channel value are stored
    ensures r.ret != 0 && |argv| >= 1 ==>
      && ChannelGiven(argv)
      && r.params == prev.(ssid := argv[0], ssidLength := ToU8(|argv[0]|),
                           channel := ToU8(Strtol(argv[1]).value))
  {
    if |argv| < 1 then
      ParseResult(-EINVAL, prev)
    else
      assert ChannelGiven(argv) ==> CString(argv[1]) by {
        if ChannelGiven(argv) {
          assert argv[1] in argv;
        }
      }
      var named := prev.(ssid := argv[0], ssidLength := ToU8(|argv[0]|));
      if ChannelGiven(argv) && At(argv[1], Strtol(argv[1]).end) != 0 then
        ParseResult(-EINVAL, named.(channel := ToU8(Strtol(argv[1]).value)))
      else
        var channel :=
          if !ChannelGiven(argv) || ToU8(Strtol(argv[1]).value) == 0 then WIFI_CHANNEL_ANY
          else ToU8(Strtol(argv[1]).value);
        var tuned := named.(channel := channel);
        var k := PskIndex(argv);
        if k < |argv| then
          var security :=
            if k + 1 < |argv| && |argv[k + 1]| <= 2 then Strtol(argv[k + 1]).value
            else WIFI_SECURITY_TYPE_PSK;
          ParseResult(0, tuned.(psk := Some(argv[k]), pskLength := ToU8(|argv[k]|), security := security))
        else
          ParseResult(0, tuned.(security := WIFI_SECURITY_TYPE_NONE))
  }

  /**
   * __wifi_args_to_params, writing the fields in place as it advances its
   * argument cursor `idx`.
   */
  method ArgsToParams(argv: seq<seq<byte>>, params: CnxParams) returns (ret: int)
    requires forall a :: a in argv ==> CString(a)
    modifies params
    ensures ParseResult(ret, params.Value()) == ParseArgs(argv, old(params.Value()))
  {
    var idx := 1;
    if |argv| < 1 {
      return -EINVAL;
    }
    params.ssid := argv[0];
    params.ssidLength := ToU8(|argv[0]|);

    if idx < |argv| && |argv[idx]| <= 2 {
      var conv := Strtol(argv[idx]);
      params.channel := ToU8(conv.value);
      if At(argv[idx], conv.end) != 0 {
        return -EINVAL;
      }
      if params.channel == 0 {
        params.channel := WIFI_CHANNEL_ANY;
      }
      idx := idx + 1;
    } else {
      params.channel := WIFI_CHANNEL_ANY;
    }

    if idx < |argv| {
      params.psk := Some(argv[idx]);
      params.pskLength := ToU8(|argv[idx]|);
      params.security := WIFI_SECURITY_TYPE_PSK;
      idx := idx + 1;
      if idx < |argv| && |argv[idx]| <= 2 {
        params.security := Strtol(argv[idx]).value;
      }
    } else {
      params.security := WIFI_SECURITY_TYPE_NONE;
    }
    ret := 0;
  }

  /**
   * A one-argument connect after a secured one: the parser reports no
   * security but keeps the previous psk pointer and length, so the
   * connect handler still builds a PSK profile. Its passphrase is the
   * first psk_length bytes of whatever `stale` the previous command's
   * argument storage now holds.
   */
  lemma OpenConnectKeepsStaleKey(prev: ConnectParams, ssid: seq<byte>, stale: seq<byte>)
    requires prev.Valid() && prev.psk.Some?
    requires CString(ssid) && |ssid| <= MAX_SSID_LEN
    requires |stale| >= prev.pskLength
    ensures
      var r := ParseArgs([ssid], prev);
      var reread := r.params.(psk := Some(stale));
      var built := MgmtProfile(FRESH_PROFILE, reread, true);
      && r.ret == 0
      && r.params.security == WIFI_SECURITY_TYPE_NONE
      && r.params.psk.Some? && r.params.pskLength == prev.pskLength
      && Buildable(reread)
      && built.ok
      && built.view.keyMgmt == WPA_KEY_MGMT_PSK
      && built.view.passphrase == Some(stale[..prev.pskLength])
  {
    var r := ParseArgs([ssid], prev);
    assert r.params.ssidLength == |ssid|;
    assert KeyedMgmt(WIFI_SECURITY_TYPE_NONE) == WPA_KEY_MGMT_PSK;
  }

  /** The shell's static state: context (shell and flags) and the scan_result counter. */
  class ShellContext {
    /** The shell that issued the last command; None prints to the console. */
    var shell: Option<nat>
    var connecting: bool
    var disconnecting: bool
    /** uint32_t scan_result. */
    var scanResult: int

    predicate Valid()
      reads this
    {
      0 <= scanResult < UINT32_LIMIT
    }

    /** Zero-initialised, as the statics are. */
    constructor ()
      ensures Valid() && shell == None && !connecting && !disconnecting && scanResult == 0
    {
      shell, connecting, disconnecting, scanResult := None, false, false, 0;
    }

    /** supplicant_shell_init: no shell yet, all flags cleared (context.all = 0), counter at 0. */
    method Init()
      modifies this
      ensures Valid() && shell == None && !connecting && !disconnecting && scanResult == 0
    {
      shell := None;
      connecting, disconnecting := false, false;
      scanResult := 0;
    }

    /**
     * handle_supplicant_scan_result: counts the entry (uint32 wrap-around)
     * and prints it as row `row`, preceded by the header exactly when it is
     * the first of the scan.
     */
    method HandleScanResult(entry: ScanEntry) returns (header: bool, row: int)
      requires Valid()
      modifies this`scanResult
      ensures Valid()
      ensures scanResult == (old(scanResult) + 1) % UINT32_LIMIT
      ensures header <==> scanResult == 1
      ensures row == scanResult
    {
      scanResult := (scanResult + 1) % UINT32_LIMIT;
      header := scanResult == 1;
      row := scanResult;
    }

    /** handle_supplicant_scan_done: warns on a non-zero status, and resets the counter either way. */
    method HandleScanDone(status: int) returns (warned: bool)
      modifies this`scanResult
      ensures Valid() && scanResult == 0
      ensures warned <==> status != 0
    {
      warned := status != 0;
      scanResult := 0;
    }

    /** handle_supplicant_connect_result: warns on a non-zero status, and clears `connecting` either way. */
    method HandleConnectResult(status: int) returns (warned: bool)
      modifies this`connecting
      ensures !connecting
      ensures warned <==> status != 0
    {
      warned := status != 0;
      connecting := false;
    }

    /** supplicant_mgmt_event_handler: the three supplicant events it listens to; any other is ignored. */
    method EventHandler(ev: Event)
      requires Valid()
      modifies this`scanResult, this`connecting
      ensures Valid()
      ensures ev.SuppScanResult? ==>
        scanResult == (old(scanResult) + 1) % UINT32_LIMIT && connecting == old(connecting)
      ensures ev.SuppScanDone? ==> scanResult == 0 && connecting == old(connecting)
      ensures ev.SuppConnectResult? ==> !connecting && scanResult == old(scanResult)
      ensures !(ev.SuppScanResult? || ev.SuppScanDone? || ev.SuppConnectResult?) ==> unchanged(this)
    {
      match ev
      case SuppScanResult(_, entry) =>
        var _, _ := HandleScanResult(entry);
      case SuppScanDone(_, status) =>
        var _ := HandleScanDone(status);
      case SuppConnectResult(_, status) =>
        var _ := HandleConnectResult(status);
      case _ =>
    }

    /**
     * cmd_supplicant_connect from shell `sh` with the shell's argv (argv[0]
     * is the command). The parser gets argv[1..]; on a parse error the
     * command fails with the context untouched. Otherwise `connecting` is
     * set and the request goes to the handler registered for it,
     * wifi_supp_connect on wpa_s_0; if that fails, `connecting` is cleared.
     * The SSID argument must fit the 32-byte buffer the handler copies it
     * into, which neither the parser nor the handler checks.
     */
    method CmdConnect(sh: nat, argv: seq<seq<byte>>, cnx: CnxParams, wpaS0: Supplicant, copied: bool)
      returns (ret: int)
      requires |argv| >= 1 && forall a :: a in argv ==> CString(a)
      requires |argv| >= 2 ==> |argv[1]| <= MAX_SSID_LEN
      requires cnx.Value().Valid()
      modifies this`connecting, this`shell, cnx
      modifies wpaS0`networks, wpaS0`filterSsids, wpaS0`apScan
      ensures
        var parsed := ParseArgs(argv[1..], old(cnx.Value()));
        && cnx.Value() == parsed.params
        && (parsed.ret != 0 ==>
              && ret == -ENOEXEC
              && connecting == old(connecting) && shell == old(shell)
              && wpaS0.networks == old(wpaS0.networks)
              && wpaS0.filterSsids == old(wpaS0.filterSsids) && wpaS0.apScan == old(wpaS0.apScan))
        && (parsed.ret == 0 ==>
              && Buildable(parsed.params)
              && var built := MgmtProfile(FRESH_PROFILE, parsed.params, copied);
              && shell == Some(sh)
              && |wpaS0.networks| == |old(wpaS0.networks)| + 1
              && wpaS0.networks[..|old(wpaS0.networks)|] == old(wpaS0.networks)
              && fresh(wpaS0.networks[|old(wpaS0.networks)|])
              && wpaS0.filterSsids == 1 && wpaS0.apScan == 1
              && wpaS0.selected == old(wpaS0.selected)
              && wpaS0.networks[|old(wpaS0.networks)|].View() ==
                   (if built.ok then built.view.(disabled := 0) else built.view)
              && (built.ok ==> ret == 0 && connecting)
              && (!built.ok ==> ret == -ENOEXEC && !connecting))
    {
      assert forall a :: a in argv[1..] ==> a in argv;
      var parseRet := ArgsToParams(argv[1..], cnx);
      if parseRet != 0 {
        // The command's help text is printed.
        return -ENOEXEC;
      }
      connecting := true;
      shell := Some(sh);
      var params := cnx.Value();
      var requestRet := SuppMgmt.WifiSuppConnect(wpaS0, params, copied);
      if requestRet != 0 {
        connecting := false;
        return -ENOEXEC;
      }
      ret := 0;
    }
  }
}

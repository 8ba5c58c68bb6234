# wpa_supplicant Zephyr glue — a Dafny model

This project models the Zephyr glue around wpa_supplicant. It has three parts:

- **Connection controller** (`zephyr_supp_api.c`):
  - `zephyr_supp_connect` builds a network profile on the engine. It copies the SSID into a zeroed 32-byte buffer, maps the requested security to a key-management value, copies the PSK or SAE secret and sets management-frame protection. It then enables and selects the profile, writes the control block `wpa_supp_api_ctrl` with the effective timeout (15 by default) and restarts the worker.
  - `zephyr_supp_disconnect` records a disconnect in the control block.
  - The worker `supp_shell_connect_status` polls the engine's `wpa_state` once a second until it sees `WPA_COMPLETED` or the timeout runs out.
  - `zephyr_supp_status` takes an interface snapshot, using two translation tables.
- **Management request handlers** (`supp_mgmt.c`):
  - `scan_result_cb` picks at most one event.
  - `wifi_supp_connect` is a second profile builder on `wpa_s_0`. It turns protection on for open networks too and does not select the profile.
- **Shell** (`supp_shell.c`):
  - The positional argument parser `__wifi_args_to_params` writes into a static request.
  - The event handlers keep a scan-result counter and the `connecting`/`disconnecting` flags.
  - `cmd_supplicant_connect` and `supplicant_shell_init`.

Files:

- `types.dfy` (module `SuppTypes`): the shared values.
  - Bytes, and truncation into `uint8_t` fields.
  - The connect request record.
  - The engine and Zephyr constants.
  - The network management events.
- `engine.dfy` (module `Engine`): the engine as collaborators.
  - A `Profile` class (`struct wpa_ssid`).
  - A `Supplicant` class with its profile list, selection, scan flags, state and disconnect-request counter.
  - `Global`, which maps a device name to its context (`get_wpa_s_handle`).
- `profile_build.dfy` (module `ProfileBuild`): the profile-building steps both builders share.
  - As a specification: the functions `Configured`, `ApiProfile` and `MgmtProfile`.
  - In place: the method `Configure`.
- `supp_api.dfy` (module `SuppApi`): the controller.
  - The control block is a class, `ApiCtrl`. Restarting the worker (abort then start) is an increment of its `launches` counter.
  - Raised events are appended to an `EventLog`.
  - The engine states the worker sees form a trace, one state per poll. After the end of the trace the last state persists.
- `supp_mgmt.dfy` (module `SuppMgmt`): the two request handlers.
- `supp_shell.dfy` (module `SuppShell`):
  - `strtol` on at most two bytes.
  - The parser, both as a function and as the in-place method with its `idx` cursor.
  - The shell context as a class.

### Behaviour of the code worth knowing

- On timeout the worker raises no connect result. It calls `zephyr_supp_disconnect` itself (`zephyr_supp_api.c:78`). That call records the disconnect and asks the engine for it. It then aborts the worker thread, which is the thread running it (`:201`). So neither the restart of the worker (`:202`) nor the rest of the worker body runs.
- No code checks the SSID length. Both builders `memcpy` `ssid_length` bytes into a 32-byte buffer (`zephyr_supp_api.c:127-129`, `supp_mgmt.c:72-75`), so the model requires `ssid_length <= 32` (`Buildable`).
- A failed signal poll leaves `rssi` at the 0 it got from the allocation (`zephyr_supp_api.c:287-290`).
- `zephyr_supp_connect` turns protection on only for psk requests (`zephyr_supp_api.c:167-168`). `wifi_supp_connect` turns it on for every request (`supp_mgmt.c:108-109`).

## Model

| member | source | states |
|---|---|---|
| Engine.Global.Handle | zephyr/src/zephyr_supp_api.c:45-55 | A device has a context exactly when its name is registered, and that context is the registered one. |
| ProfileBuild.SsidBuffer | zephyr/src/zephyr_supp_api.c:127-130 | The SSID buffer is 32 bytes long. Its first `ssid_length` bytes are the request's SSID and the rest are zero. |
| ProfileBuild.KeyedMgmt | zephyr/src/zephyr_supp_api.c:137-153 | With a psk, security 3 gives SAE and only 3 does. Security 2 gives PSK-SHA256 and only 2 does. Every other value gives PSK. |
| ProfileBuild.Configured | zephyr/src/zephyr_supp_api.c:126-165 | The shared build steps. The build succeeds iff there is no psk or the secret copy succeeds. `ssid_len` equals `ssid_length` and the profile is disabled. An open request gives key management NONE and changes nothing else. A psk request gives `KeyedMgmt`, and `sae_password` (security 3) or `passphrase` (otherwise) holds exactly the first `psk_length` psk bytes, or nothing if the copy failed. `psk_set` is raised only after a successful copy. |
| ProfileBuild.ApiProfile | zephyr/src/zephyr_supp_api.c:137-168 | The API builder turns `ieee80211w` on (1) only for a successful psk build. An open profile keeps the engine default. Every other field is as `Configured` gives it. |
| ProfileBuild.MgmtProfile | zephyr/src/supp_mgmt.c:69-109 | The management builder turns `ieee80211w` on (1) for every build that gets past the secret copy, open networks included. Every other field is as `Configured` gives it. |
| ProfileBuild.BuildersDifferOnlyInOpenPmf | zephyr/src/supp_mgmt.c:108-109 | The two builders give identical results for every psk request. For an open request the only difference is `ieee80211w`: 1 from the management builder, the engine default from the API builder. |
| ProfileBuild.Configure | zephyr/src/zephyr_supp_api.c:126-165 | The in-place build leaves the profile equal to `Configured` of its old contents and returns the same success flag. `filter_ssids` and `ap_scan` are 1 afterwards. |
| SuppApi.ApiCtrl.constructor | zephyr/src/zephyr_supp_api.c:37-43 | The control block starts with no device and the worker never started. |
| SuppApi.EffectiveTimeout | zephyr/src/zephyr_supp_api.c:180-181 | The timeout is the requested one when it is positive, and 15 otherwise. It is always at least 1. |
| SuppApi.Connect | zephyr/src/zephyr_supp_api.c:114-187 | An unknown device gives -1 with no profile created and the control block untouched. Otherwise exactly one fresh profile is appended, and the scan flags are 1. The result is 0 iff the build succeeds. On success the profile equals `ApiProfile` but enabled, it is selected, the control block holds the device, CONNECT and the effective timeout, and the worker is restarted once, with a control block it can run on. On failure the profile stays disabled and unselected, and the control block is untouched. |
| SuppApi.Disconnect | zephyr/src/zephyr_supp_api.c:189-204 | An unknown device gives -1 and nothing changes. Otherwise the result is 0, the control block holds the device and DISCONNECT with the timeout unchanged, the engine gets one disconnect request, and the worker is restarted once, with a control block it can run on. |
| SuppApi.PollLoop | zephyr/src/zephyr_supp_api.c:69-82 | The loop sleeps at most `timeout` times (none for a non-positive timeout). It stops on the first poll that sees COMPLETED, or when the budget is used up. The state it ends on is the state after that many sleeps, and no earlier poll saw COMPLETED. The post-incremented counter ends equal to the sleeps, plus 1 unless the state is COMPLETED. The timeout branch is taken iff no poll within the budget sees COMPLETED. |
| SuppApi.ConnectStatus | zephyr/src/zephyr_supp_api.c:57-93 | The worker body. An unknown device gives status 1 and one result event for the requested operation: a connect result with status 1, or a disconnect result with status 0. A DISCONNECT raises exactly one disconnect result with status 0. A CONNECT that sees COMPLETED within the budget raises exactly one connect result with status 0. Otherwise the worker issues one disconnect request and rewrites the control block to DISCONNECT, keeping the timeout. It then ends because it aborted itself: status 1, no event, and no restart of the worker (the launch count is unchanged). |
| SuppApi.BandToZephyr | zephyr/src/zephyr_supp_api.c:207-217 | The 2.4 GHz and 5 GHz bands map to Zephyr's 2.4 GHz and 5 GHz bands, each iff the input is that band. Every other input gives -1. |
| SuppApi.KeyMgmtToZephyr | zephyr/src/zephyr_supp_api.c:219-233 | NONE, PSK, PSK-SHA256 and SAE map to security types 0, 1, 2 and 3, each iff the input is that value. Every other input gives -1. |
| SuppApi.SecurityRoundTrip | zephyr/src/zephyr_supp_api.c:219-233 | A profile built by the connect request is reported by the key-management table as the security type the request asked for: none without a psk, 2 or 3 as given, PSK otherwise. |
| SuppApi.ReportedSsid | zephyr/src/zephyr_supp_api.c:267-282 | A non-empty stored SSID is reported as its `ssid_len` bytes. An empty one falls back to the driver's SSID, or to length 0 when the driver call fails. |
| SuppApi.Status | zephyr/src/zephyr_supp_api.c:236-294 | There is no snapshot iff the device is unknown or the allocation fails. The state is always copied. Below ASSOCIATED every other field stays zero. From ASSOCIATED on, the snapshot holds the BSSID, the translated band and security, `ieee80211w` as mfp, the channel, the reported SSID and its length, the profile mode and WIFI_6. The RSSI is the signal only when the poll returns 0, and zero otherwise. |
| SuppApi.CompletedScenario | zephyr/src/zephyr_supp_api.c:57-93 | A PSK request with the default timeout, on an engine reaching COMPLETED after three polls, builds a PSK profile, returns 0 and raises exactly one successful connect result. |
| SuppApi.TimeoutScenario | zephyr/src/zephyr_supp_api.c:71-82 | An open request with timeout 2, on an engine that never leaves SCANNING, ends with status 1, one disconnect request and no event. |
| SuppMgmt.ScanResultCb | zephyr/src/supp_mgmt.c:29-49 | No interface gives no event. With an interface there is exactly one event: scan-done carrying the status iff there is no entry, and otherwise a scan result carrying the entry. |
| SuppMgmt.WifiSuppConnect | zephyr/src/supp_mgmt.c:60-114 | Exactly one fresh profile is appended to `wpa_s_0`, the scan flags are 1, and the selection is untouched. The result is 0 iff the build succeeds. The profile equals `MgmtProfile`, and it is enabled only on success. |
| SuppShell.Strtol | zephyr/src/supp_shell.c:164-167 | On at most two bytes: an all-digit string converts fully to its decimal value. A digit followed by a non-digit converts that digit and stops before the end. Whitespace or `+` before one digit converts the digit, and `-` before one digit converts its negation, both consuming the whole string. Every other string has no digit after the optional whitespace and sign, and gives 0 with nothing consumed. The value lies in -9..99. |
| SuppShell.CnxParams.constructor | zephyr/src/supp_shell.c:198 | The static request starts zeroed, with no psk. |
| SuppShell.ParseArgs | zephyr/src/supp_shell.c:148-192 | The parser returns -EINVAL iff there is no argument or a channel argument of at most 2 bytes has trailing non-digits, and 0 otherwise. With no argument nothing changes. A bad channel fails after storing the SSID, its length and the truncated channel value, and nothing else changes. Otherwise the SSID is the first argument and its length is that argument's length as a byte. A missing or long second argument gives channel ANY and is not consumed, and a channel value of 0 becomes ANY. A remaining argument becomes the psk with security PSK, unless a following argument of at most 2 bytes overrides the security. With no psk argument the security is NONE and the old psk is kept. The timeout is never written. |
| SuppShell.ArgsToParams | zephyr/src/supp_shell.c:148-192 | The in-place parser with its `idx` cursor returns what `ParseArgs` returns on the old static request, and leaves the request equal to `ParseArgs`'s result. |
| SuppShell.OpenConnectKeepsStaleKey | zephyr/src/supp_shell.c:178-189 | A one-argument connect after a secured one parses with security NONE but keeps the previous psk pointer and length. The management builder then still makes a PSK profile whose passphrase is the first `psk_length` bytes of whatever the previous command's argument storage now holds. |
| SuppShell.ShellContext.constructor | zephyr/src/supp_shell.c:32-45 | The shell context starts with no shell, both flags clear and the counter at 0. |
| SuppShell.ShellContext.Init | zephyr/src/supp_shell.c:342-357 | Init leaves no shell, both flags clear and the counter at 0. |
| SuppShell.ShellContext.HandleScanResult | zephyr/src/supp_shell.c:58-76 | The counter goes up by 1, with 32-bit wrap-around. The header is printed iff the counter becomes 1, and the row number is the new counter. |
| SuppShell.ShellContext.HandleScanDone | zephyr/src/supp_shell.c:78-90 | A warning iff the status is non-zero. The counter is reset to 0 either way. |
| SuppShell.ShellContext.HandleConnectResult | zephyr/src/supp_shell.c:92-104 | A warning iff the status is non-zero. `connecting` is cleared either way. |
| SuppShell.ShellContext.EventHandler | zephyr/src/supp_shell.c:124-146 | Scan-result, scan-done and connect-result events each update only their own part of the context. Every other event leaves the context unchanged. |
| SuppShell.ShellContext.CmdConnect | zephyr/src/supp_shell.c:194-220 | The static request becomes `ParseArgs` of its old value over the arguments after the command name. A parse failure returns -ENOEXEC, leaving the flags, the shell, the engine's profiles and its scan flags untouched. Otherwise the shell is recorded, one fresh profile is built by the management handler, the earlier profiles are kept, the scan flags are 1 and the selection is untouched. Success returns 0 with `connecting` still set. A failed request returns -ENOEXEC with `connecting` cleared. |

## Left out

- `src/l2_packet/l2_packet_zephyr.c`: left out. It is socket plumbing around foreign calls (`socket`, `bind`, `send`, `recvfrom`, `eloop` registration) with no state worth a contract.
- Threads:
  - `K_THREAD_DEFINE`, `k_thread_abort`/`k_thread_start`, `k_yield` and `k_msleep` are not modelled.
  - A request that aborts and restarts the worker increments `ApiCtrl.launches`. The worker body runs as a sequential method after the request that started it.
  - A sleep is one step along the state trace.
- SuppApi.ConnectStatus: reads the control block passed to the worker thread (`zephyr_supp_api.c:98`). The code's self-initialisation of `ctrl` at line 61 would leave the pointer undefined, and the model does not follow that.
- SuppApi.ConnectStatus: on timeout, the model takes `k_thread_abort` on the current thread not to return. So the worker raises no event and is not restarted. The kernel's thread semantics are not modelled beyond this.
- SuppApi.Connect: does not capture that the engine's `select_network` also disables every other profile. `Engine.Supplicant.SelectNetwork` records only the selection, so the model keeps the `disabled` value of earlier profiles across a connect. The engine's code is not part of this model.
- OpenConnectKeepsStaleKey, SuppShell.ParseArgs, SuppShell.ArgsToParams, SuppShell.ShellContext.CmdConnect: a command argument is modelled as the bytes it held at parse time. The source stores the `argv` pointer in the static request (`supp_shell.c:180`, `:198`), and nothing keeps that storage alive for later commands. The lemma therefore takes the bytes read back through a stale pointer as an arbitrary parameter. The parser and command contracts state the stored bytes as they were at parse time.
- SuppApi.Status: the profile pointer is read before its NULL check (`zephyr_supp_api.c:262` against `:267`). The model therefore requires a current profile, and a six-byte BSSID, whenever the state is at least ASSOCIATED.
- SuppApi.Status:
  - The snapshot's SSID holds only the copied bytes, not the rest of the zeroed 32-byte field.
  - The band and channel conversions (`wpas_freq_to_band`, `ieee80211_freq_to_chan`) are taken as answers supplied by the driver.
- Engine internals:
  - `wpa_supplicant_add_network`, `enable_network`, `select_network`, `wpa_config_update_psk` and `wpas_request_disconnection` are reduced to the fields they write (the profile list, `disabled`, the selection, `psk_set` and a request counter).
  - The defaults of a new profile are abstract constants (key management and `ieee80211w` defaults).
  - `dup_binstr` success is a boolean input.
  - The source does not check for allocation failure in `wpa_supplicant_add_network` or in the SSID `os_zalloc`, so the model does not either.
- SuppApi.Connect, SuppMgmt.WifiSuppConnect, SuppShell.ShellContext.CmdConnect: require the SSID to fit the 32-byte buffer. Longer SSIDs overflow the `memcpy` in the source and have no defined result to model.
- Field widths:
  - `ssid_length`, `psk_length` and `channel` are taken to be `uint8_t`, and stores into them truncate modulo 256.
  - The Zephyr header that declares `wifi_connect_req_params` is not part of this model.
- SuppShell.Strtol: modelled only for strings of at most two bytes, the only ones the parser converts. It covers leading whitespace, an optional sign and decimal digits. `errno` and overflow do not arise at that length.
- Console output (`print`, `shell_fprintf`, `printk`, `shell_help`) is left out. Handlers return only whether they would warn, or the header and row number.
- Left out as forwarding or registration code:
  - `zephyr_supp_scan`, `wifi_supp_scan` and `cmd_supplicant_scan` only forward to the engine or to `net_mgmt`.
  - The AP enable/disable commands are foreign driver calls.
  - Shell, `SYS_INIT` and net_mgmt handler registration.
- `cmd_supplicant_disconnect` and `handle_supplicant_disconnect_result` are compiled out (`#ifdef notyet`), so they are not modelled, and `disconnecting` is only ever cleared.
- Event codes: `supp_mgmt.h` builds them from Zephyr `NET_MGMT_*` macros. They are modelled as the constructors of `SuppTypes.Event`, with `Other` for every other code.

# Roam synchronisation and SoundWire DMIC: a Dafny model

This project models two pieces of a Qualcomm WLAN/audio driver tree and
proves properties of them.

**Firmware roam synchronisation** (`umac/mlme/connection_mgr/core/src/wlan_cm_roam_fw_sync.c`).
When the firmware has roamed to a new AP, it sends a roam-sync indication
(`struct roam_offload_synch_ind`). The connection manager then:

- hands the indication to its state machine (`cm_fw_roam_sync_req`);
- forwards it to the vdev state machine (`cm_fw_send_vdev_roam_event`);
- cleans up after the AP being left (`cm_fw_roam_sync_start_ind`, `cm_update_scan_mlme_on_roam`);
- builds a connect response from the indication (`cm_fill_roam_info`, `cm_populate_connect_ies`, `cm_copy_tspec_ie`, `cm_fill_fils_ie`);
- settles the keys (`cm_process_roam_keys`);
- tells its consumers and delivers ROAM_DONE (`cm_fw_roam_sync_propagation`);
- finishes the roam (`cm_fw_roam_complete`).

How the model is built:

- The connect response and the roaming info are classes filled in place.
- Every entry point returns its status and the ordered sequence of calls it makes into other components (its *trace*). Each entry point is proved equal to a status function and a trace function of its inputs.
- The properties are lemmas over those functions, for example:
  - the vdev reference is released exactly once;
  - the response is freed exactly when it was allocated;
  - the command is removed exactly on success;
  - a failure stops the roam and aborts the command;
  - the PMK installed is the one the PMKSA cache or the indication supplies.

**SoundWire DMIC codec** (`asoc/codecs/swr-dmic.c`). The modelled parts are:

- the enum mapping between mixer items and SoundWire master ports (`get_master_port`, `get_master_port_val`);
- the control-name classification (`swr_dmic_tx_get_slave_port_type_idx`, with the kernel's `strnstr`);
- the "HIFI PortMap", "LP PortMap" and "TX MODE" controls, which update the private data (`struct swr_dmic_priv`, a class whose port map is an array);
- the port lookup of `dmic_swr_ctrl`;
- the retry loop of `swr_dmic_reset`;
- the probe: the codec-name lookup, the DAI and AIF name buffers, and the registration outcome.

Modelling conventions:

- **Header constants.** Constants defined in headers that are not part of this model are left uninterpreted, so every proof holds for any value they have. Examples are `SWRM_*`, `SWR_DMIC_*_PORT`, `WLAN_FRAME_HDR_LEN`, `MAX_KCK_LEN` and `ROAM_AUTH_STATUS_AUTHENTICATED`. Where a property needs something of them, it is a `requires`. For instance, `MasterPortsValid` says the master port numbers are distinct and fit a u8.
- **External services.** Services the code calls (object manager, state machines, allocators, regulatory, scan and policy managers, device tree) are parameters. An `*Env` datatype carries the answer each call gives.
- **C conversions.** They are written out: `U8Of` (an int stored into a u8), `AsInt32` (a long or an unsigned int read as an int), and errno values as negative integers (`-EINVAL`, `-ENOMEM`).

Where the code's behaviour looks unintended, the model follows the code. Examples are the second NULL test in `cm_fw_roam_complete` and the statuses the propagation drops. Those places are listed under Findings.

## Model

| member | source | states |
|---|---|---|
| RoamInd.ReassocIes | umac/mlme/connection_mgr/core/src/wlan_cm_roam_fw_sync.c:265-272 | the IEs of a (re)association frame exist iff the frame is longer than its MAC header, and are the frame minus that header |
| RoamInd.RicTspecSplit | umac/mlme/connection_mgr/core/src/wlan_cm_roam_fw_sync.c:310-320 | the RIC followed by the TSPEC is exactly the used prefix of ric_tspec_data: the TSPEC copy starts where the RIC ends, nothing lost or duplicated |
| RoamInd.LayoutRoundTrip | umac/mlme/connection_mgr/core/src/wlan_cm_roam_fw_sync.c:249-297 | frames laid out in an event buffer at the offsets the indication declares decode back byte for byte, MAC headers stripped, empty frames absent |
| RoamInd.ValidateRoamSyncInd | umac/mlme/connection_mgr/core/src/wlan_cm_roam_fw_sync.c:249-297 | the missing validation: accepts exactly the indications whose frame offsets, RIC/TSPEC lengths and key lengths are in bounds, and otherwise names a requirement that is violated |
| RoamInd.UncheckedIeOffset | umac/mlme/connection_mgr/core/src/wlan_cm_roam_fw_sync.c:250-262 | as written, an indication whose beacon length test passes can declare a frame outside the event buffer |
| RoamInd.UncheckedKeyLength | umac/mlme/connection_mgr/core/src/wlan_cm_roam_fw_sync.c:372-375 | as written, a kck_len that passes the non-zero test can exceed the kck array it is copied into |
| RoamRsp.Copied | umac/mlme/connection_mgr/core/src/wlan_cm_roam_fw_sync.c:250-262 | an optional blob copy sets the length whenever the blob exists, and the pointer (holding the blob's bytes) iff the allocation succeeds |
| RoamRsp.RoamSyncInfo.constructor | umac/mlme/connection_mgr/core/src/wlan_cm_roam_fw_sync.c:341-343 | a freshly allocated roaming info has all key arrays at their widths and zeroed |
| RoamRsp.JoinRsp.constructor | umac/mlme/connection_mgr/core/src/wlan_cm_roam_fw_sync.c:617-621 | a freshly allocated response is zeroed |
| RoamRsp.FillFilsIe | umac/mlme/connection_mgr/core/src/wlan_cm_roam_fw_sync.c:203-228 | FILS parameters are allocated iff there is HLP data; E_NOMEM exactly when that allocation fails |
| RoamRsp.CopyFrameIes | umac/mlme/connection_mgr/core/src/wlan_cm_roam_fw_sync.c:264-297 | one reassociation frame: the IEs are copied when the frame exceeds its header; E_NOMEM exactly when the copy's allocation fails |
| RoamRsp.CopyFrames | umac/mlme/connection_mgr/core/src/wlan_cm_roam_fw_sync.c:249-297 | beacon, reassociation response and request are copied in order, each failure stopping the later copies; status is the first failure |
| RoamRsp.PopulateConnectIes | umac/mlme/connection_mgr/core/src/wlan_cm_roam_fw_sync.c:239-303 | the three frame copies, then is_ft and the FILS parameters on success only; the FILS status is dropped |
| RoamRsp.CopyTspecIe | umac/mlme/connection_mgr/core/src/wlan_cm_roam_fw_sync.c:307-324 | the TSPEC that follows the RIC is copied when tspec_len is non-zero; E_NOMEM exactly when its allocation fails |
| RoamRsp.CopyKeys | umac/mlme/connection_mgr/core/src/wlan_cm_roam_fw_sync.c:370-395 | the roaming info afterwards holds the indication's authentication status, key lengths, key bytes, replay counter, PMKID, masked roam reason and ERP fields |
| RoamRsp.CopyKeyBytes | umac/mlme/connection_mgr/core/src/wlan_cm_roam_fw_sync.c:372-392 | KCK, KEK and PMK arrays hold the indication's bytes up to their declared lengths; replay counter and PMKID are copied whole |
| RoamRsp.FillHeader | umac/mlme/connection_mgr/core/src/wlan_cm_roam_fw_sync.c:344-351 | vdev id, BSSID, frequency and nss come from the indication; is_reassoc, SUCCESS and the command id are set |
| RoamRsp.CopyRicIe | umac/mlme/connection_mgr/core/src/wlan_cm_roam_fw_sync.c:353-363 | the RIC is copied when ric_data_len is non-zero, the length set even when the allocation fails; E_NOMEM exactly then |
| RoamRsp.CopyIes | umac/mlme/connection_mgr/core/src/wlan_cm_roam_fw_sync.c:353-368 | RIC, then TSPEC (status dropped), then the connect IEs; the status is the RIC's failure or the connect IEs' status; every copy after a failed allocation is left empty, and is_ft and the FILS parameters are set only on success |
| RoamRsp.FillAllocated | umac/mlme/connection_mgr/core/src/wlan_cm_roam_fw_sync.c:344-397 | once roaming_info exists: header filled, elements copied up to the first failed allocation and the later ones left empty, and the keys copied on success and left zero on failure |
| RoamRsp.FillRoamInfo | umac/mlme/connection_mgr/core/src/wlan_cm_roam_fw_sync.c:335-398 | E_NOMEM without roaming_info and the response untouched; otherwise every field as the indication gives it, and the status as FillOutcome; on a RIC, beacon or reassociation failure the later buffers stay empty, is_ft stays false and there are no FILS parameters |
| RoamRsp.FillRoamInfoChecked | umac/mlme/connection_mgr/core/src/wlan_cm_roam_fw_sync.c:335-398 | corrected fill: success implies every announced element owns its bytes, the FILS parameters exist and the keys are copied |
| RoamRsp.TspecAndFilsFailuresIgnored | umac/mlme/connection_mgr/core/src/wlan_cm_roam_fw_sync.c:364-368 | as written, the fill status does not depend on whether the TSPEC or FILS allocation succeeded |
| RoamKeys.KeyPlanFor | umac/mlme/connection_mgr/core/src/wlan_cm_roam_fw_sync.c:463-547 | wait-for-key iff not authenticated and AKM neither SAE nor OWE; cached PMK iff settled and the lookup hits; indication PMK iff settled, miss, not 11r and pmk_len > 0 |
| RoamKeys.KeyMaterialOf | umac/mlme/connection_mgr/core/src/wlan_cm_roam_fw_sync.c:524-536 | the PMK read from the roaming info has pmk_len bytes |
| RoamKeys.ProcessRoamKeys | umac/mlme/connection_mgr/core/src/wlan_cm_roam_fw_sync.c:400-550 | status and calls are KeyStatus and KeyEvents of the roaming info's key material |
| RoamKeys.KeyFailureQuiet | umac/mlme/connection_mgr/core/src/wlan_cm_roam_fw_sync.c:414-434 | E_FAILURE iff pdev, psoc or MLME object is missing, and then no call is made |
| RoamKeys.KeyBranchesExclusive | umac/mlme/connection_mgr/core/src/wlan_cm_roam_fw_sync.c:463-547 | the wait-for-key timer is armed, and alone, iff the keys are not settled; otherwise the SS is set to none |
| RoamKeys.InstalledPmk | umac/mlme/connection_mgr/core/src/wlan_cm_roam_fw_sync.c:498-541 | the PMK installed is the cached one on a hit, the indication's only on a non-11r miss with a PMK; a PMKSA entry is added only then, with the peer BSSID and the indication's PMKID |
| RoamKeys.TempEntryZeroedBeforeFree | umac/mlme/connection_mgr/core/src/wlan_cm_roam_fw_sync.c:481-543 | the temporary PMKSA entry is freed at most once, last, after every use and only after being zeroed |
| RoamSync.FwRoamSyncReq | umac/mlme/connection_mgr/core/src/wlan_cm_roam_fw_sync.c:46-72 | status and calls are SyncReqStatus and SyncReqTrace |
| RoamSync.SyncReqReleasesOnce | umac/mlme/connection_mgr/core/src/wlan_cm_roam_fw_sync.c:52-71 | a missing vdev gives E_NULL_VALUE and no call; otherwise the reference is taken first and released last, once each, and the status is the delivery status |
| RoamSync.SyncReqAbortsThenStops | umac/mlme/connection_mgr/core/src/wlan_cm_roam_fw_sync.c:63-67 | the firmware roam is aborted and roaming stopped, once each and in that order, iff the state machine refused ROAM_SYNC |
| RoamSync.FwSendVdevRoamEvent | umac/mlme/connection_mgr/core/src/wlan_cm_roam_fw_sync.c:74-115 | status and calls are VdevRoamStatus and VdevRoamTrace |
| RoamSync.VdevRoamAbortsOnError | umac/mlme/connection_mgr/core/src/wlan_cm_roam_fw_sync.c:83-114 | with no roam command it fails and aborts CM_ID_INVALID; the command is aborted exactly once iff the status is an error; the roam is stopped iff the vdev state machine refused the event |
| RoamSync.ScanTrace | umac/mlme/connection_mgr/core/src/wlan_cm_roam_fw_sync.c:162-199 | at most one scan-entry update, for the given BSSID and state, and no lifecycle call |
| RoamSync.UpdateScanMlmeOnRoam | umac/mlme/connection_mgr/core/src/wlan_cm_roam_fw_sync.c:162-199 | the calls are ScanTrace: the update is made iff pdev, active channel and SSID are all available |
| RoamSync.FwRoamSyncStartInd | umac/mlme/connection_mgr/core/src/wlan_cm_roam_fw_sync.c:117-160 | status is the roam-state change's; calls are StartIndTrace |
| RoamSync.StartIndCleansUpOldBssid | umac/mlme/connection_mgr/core/src/wlan_cm_roam_fw_sync.c:133-151 | the old BSSID is marked disconnected first, rejected as a driver-added kickout iff the reason is a kickout, and its scan entry set to NONE |
| RoamSync.StartIndEntersSynchInProg | umac/mlme/connection_mgr/core/src/wlan_cm_roam_fw_sync.c:153-159 | the roam state moves to SYNCH_IN_PROG exactly once, the OS interface is told last, no lifecycle call is made |
| RoamSync.StartIndScanBeforeStateChange | umac/mlme/connection_mgr/core/src/wlan_cm_roam_fw_sync.c:150-155 | the old scan entry is updated before the roam state changes |
| RoamSync.NotifyTrace | umac/mlme/connection_mgr/core/src/wlan_cm_roam_fw_sync.c:636-653 | telling the consumers and restarting RSO make no lifecycle call |
| RoamSync.ScanAndKeysTrace | umac/mlme/connection_mgr/core/src/wlan_cm_roam_fw_sync.c:629-634 | the scan database update, CSR response and key step make no lifecycle call |
| RoamSync.KeyEventsQuiet | umac/mlme/connection_mgr/core/src/wlan_cm_roam_fw_sync.c:463-547 | the key step makes no lifecycle call |
| RoamSync.FilledKeyMaterial | umac/mlme/connection_mgr/core/src/wlan_cm_roam_fw_sync.c:370-395 | after a successful fill the key step reads the indication's authentication status, PMK and PMKID |
| RoamSync.AfterFill | umac/mlme/connection_mgr/core/src/wlan_cm_roam_fw_sync.c:629-667 | status and calls after a successful fill are AfterFillStatus and AfterFillTrace |
| RoamSync.ConnectDone | umac/mlme/connection_mgr/core/src/wlan_cm_roam_fw_sync.c:636-667 | the status is ROAM_DONE's; the calls are DoneTrace |
| RoamSync.WithRsp | umac/mlme/connection_mgr/core/src/wlan_cm_roam_fw_sync.c:622-667 | status and calls from the fill on are RspStatus and RspTrace |
| RoamSync.WithCtx | umac/mlme/connection_mgr/core/src/wlan_cm_roam_fw_sync.c:608-675 | status and calls from the command lookup to the error label are CtxStatus and CtxTrace |
| RoamSync.Propagate | umac/mlme/connection_mgr/core/src/wlan_cm_roam_fw_sync.c:575-680 | status and calls are PropagationStatus and PropagationTrace |
| RoamSync.FwRoamSyncPropagation | umac/mlme/connection_mgr/core/src/wlan_cm_roam_fw_sync.c:575-680 | the propagation as written: status and calls are the non-strict PropagationStatus and PropagationTrace |
| RoamSync.FwRoamSyncPropagationChecked | umac/mlme/connection_mgr/core/src/wlan_cm_roam_fw_sync.c:622-634 | corrected propagation: success implies every announced element was allocated and the key step did not fail for memory; a failed pdev, psoc or MLME lookup in the key step stays non-fatal |
| RoamSync.DoneLifecycle | umac/mlme/connection_mgr/core/src/wlan_cm_roam_fw_sync.c:655-667 | the command is removed iff ROAM_DONE was accepted, and that is the only lifecycle call of the tail |
| RoamSync.AfterFillLifecycle | umac/mlme/connection_mgr/core/src/wlan_cm_roam_fw_sync.c:629-667 | after a successful fill the only lifecycle call is the removal of the command, made iff that stretch succeeds |
| RoamSync.CtxLifecycle | umac/mlme/connection_mgr/core/src/wlan_cm_roam_fw_sync.c:608-675 | once cm_ctx exists: the response is allocated and freed iff its allocation succeeded, the command removed between them on success, roam stopped and command aborted on failure |
| RoamSync.PropagationLifecycle | umac/mlme/connection_mgr/core/src/wlan_cm_roam_fw_sync.c:588-679 | no vdev: E_NULL_VALUE, no call; no pdev or cm_ctx: E_FAILURE with only the reference taken and released; otherwise the reference brackets the ctx lifecycle |
| RoamSync.PropagationSuccessLifecycle | umac/mlme/connection_mgr/core/src/wlan_cm_roam_fw_sync.c:616-679 | a successful propagation's lifecycle calls are exactly: get reference, allocate response, remove command, free response, release reference |
| RoamSync.PropagationFailureLifecycle | umac/mlme/connection_mgr/core/src/wlan_cm_roam_fw_sync.c:668-675 | a failure once cm_ctx exists frees the response iff allocated, stops the roam, aborts the command, never removes it, then releases the reference |
| RoamSync.StartInitAfterFill | umac/mlme/connection_mgr/core/src/wlan_cm_roam_fw_sync.c:647-653 | after a fill, RSO is restarted iff the keys do not stop the propagation and no keys are awaited |
| RoamSync.StartInitOnlyWithoutWaitForKey | umac/mlme/connection_mgr/core/src/wlan_cm_roam_fw_sync.c:647-653 | RSO is restarted only when CSR answers that no keys are awaited; on success, iff it so answers |
| RoamSync.AsWrittenIgnoresKeysAndOptionalIes | umac/mlme/connection_mgr/core/src/wlan_cm_roam_fw_sync.c:622-634 | as written, the propagation status is independent of the key step and of the TSPEC and FILS allocations |
| RoamSync.PropKeys | umac/mlme/connection_mgr/core/src/wlan_cm_roam_fw_sync.c:414-419 | the key step asks the same vdev for its pdev, so it sees the pdev the propagation found (lines 596-600); its other answers are the key environment's |
| RoamSync.KeyFailureReportedAsSuccess | umac/mlme/connection_mgr/core/src/wlan_cm_roam_fw_sync.c:481-483 | a roam whose key step cannot allocate its pmkid_cache entry (E_NOMEM, PMK not reconciled) is reported as SUCCESS as written and as E_NOMEM by the checked propagation |
| RoamSync.CheckedRefinesAsWritten | umac/mlme/connection_mgr/core/src/wlan_cm_roam_fw_sync.c:622-634 | the checked propagation succeeds only if the as-written one does, the TSPEC and FILS allocations succeeded and the key step did not fail for memory; when that holds, the two agree |
| RoamSync.NextRsoState | umac/mlme/connection_mgr/core/src/wlan_cm_roam_fw_sync.c:753-766 | RSO enabled iff the firmware authenticated, otherwise ROAM_INIT |
| RoamSync.FwRoamComplete | umac/mlme/connection_mgr/core/src/wlan_cm_roam_fw_sync.c:682-769 | status and calls are CompleteStatus and CompleteTrace |
| RoamSync.CompleteOutcome | umac/mlme/connection_mgr/core/src/wlan_cm_roam_fw_sync.c:714-766 | a disabled frequency disconnects for a band change and fails, and nothing else is called; otherwise success, HI_RSSI disabled iff 5 GHz, and the roam state set once, last, from the authentication status |
| RoamSync.NullPsocPassedOn | umac/mlme/connection_mgr/core/src/wlan_cm_roam_fw_sync.c:700-705 | as written, a NULL psoc is passed to the policy manager while the call reports success |
| RoamSync.FwRoamCompleteChecked | umac/mlme/connection_mgr/core/src/wlan_cm_roam_fw_sync.c:700-705 | corrected: a NULL psoc fails with E_FAILURE before any call; no call ever receives a NULL psoc |
| SwrDmicPorts.MasterPortTable | asoc/codecs/swr-dmic.c:347-352 | the master-port enum has 13 items |
| SwrDmicPorts.GetMasterPort | asoc/codecs/swr-dmic.c:60-113 | item 0..12 maps to its table entry, anything else to SWRM_TX1_CH1; the result is always a listed master port |
| SwrDmicPorts.GetMasterPortVal | asoc/codecs/swr-dmic.c:115-168 | a listed master port maps to the first item naming it, anything else to item 0; the result is an item 0..12 |
| SwrDmicPorts.MasterPortRoundTrip | asoc/codecs/swr-dmic.c:60-168 | with distinct port numbers, item to port to item and listed port to item to port are identities |
| SwrDmicPorts.MasterPortFallback | asoc/codecs/swr-dmic.c:104-108 | an out-of-range item reads back as item 0 |
| SwrDmicPorts.StrnstrFromFinds | asoc/codecs/swr-dmic.c:175-177 | the strnstr search from an offset returns the first occurrence ending within the window, and none iff there is none |
| SwrDmicPorts.StrnstrFinds | asoc/codecs/swr-dmic.c:175-177 | strnstr finds the pattern iff it occurs within the first len characters, and returns its first occurrence |
| SwrDmicPorts.SlavePortTypeIdx | asoc/codecs/swr-dmic.c:170-184 | 0 iff the name contains HIFI or LP within the window; HIFI takes precedence; -EINVAL leaves *port_idx unchanged |
| SwrDmicPorts.PortMapControlNames | asoc/codecs/swr-dmic.c:358-366 | "HIFI PortMap" selects the HIFI port, "LP PortMap" the LP port, "TX MODE" neither |
| SwrDmic.ControlSlot | asoc/codecs/swr-dmic.c:195-203 | a control addresses a slot only if its name names HIFI or LP and the slot lies within the map; for HIFI it is the HIFI port |
| SwrDmic.PutWritesOnlyItsSlot | asoc/codecs/swr-dmic.c:233-237 | a port-map write changes only the slot its name selects, and nothing for other names |
| SwrDmic.PutThenGet | asoc/codecs/swr-dmic.c:186-240 | with distinct u8 port numbers, reading a port-map control after writing item 0..12 through it gives the item back |
| SwrDmic.HifiAndLpIndependent | asoc/codecs/swr-dmic.c:362-365 | when the HIFI and LP ports differ, writing one port-map control leaves the other's reading unchanged |
| SwrDmic.SwrDmicPriv.constructor | asoc/codecs/swr-dmic.c:457-460 | the private data starts zeroed: TX mode 0, every port-map slot 0 |
| SwrDmic.SwrDmicPriv.TxMasterPortGet | asoc/codecs/swr-dmic.c:186-210 | 0 iff the name selects a port, else -EINVAL with the value untouched; the value is the item of the slot's master port |
| SwrDmic.SwrDmicPriv.TxMasterPortPut | asoc/codecs/swr-dmic.c:212-240 | 0 iff the name selects a port, else -EINVAL; the map afterwards is PortMapAfterPut of the old map |
| SwrDmic.SwrDmicPriv.TxModePut | asoc/codecs/swr-dmic.c:311-325 | as written, any control value is stored, truncated to an int, and 0 is returned |
| SwrDmic.SwrDmicPriv.TxModePutChecked | asoc/codecs/swr-dmic.c:311-325 | corrected: accepted iff the value is a TX MODE item that indexes the map, and then the mode selects a slot; otherwise -EINVAL and nothing changes |
| SwrDmic.SwrDmicPriv.TxModeGet | asoc/codecs/swr-dmic.c:327-341 | reports the stored TX mode and returns 0 |
| SwrDmic.SwrDmicPriv.CtrlPortType | asoc/codecs/swr-dmic.c:282-283 | the port id is the TX mode narrowed to a u8, and the port type is the map's entry at it |
| SwrDmic.TxModeUncheckedIndex | asoc/codecs/swr-dmic.c:322 | as written, TX MODE -1 is accepted and stored, leaving private data whose mode selects no slot of the map (port id 255), so the lookup of CtrlPortType is out of bounds |
| SwrDmic.SwrDevice.Reset | asoc/codecs/swr-dmic.c:632-651 | -EINVAL with no change without private data; otherwise 1 to 6 reads, a sleep between consecutive ones, stopping at the first success, and the device number last written |
| SwrDmicProbe.Itoa | asoc/codecs/swr-dmic.c:31 | the digit character of a single-digit index |
| SwrDmicProbe.FindCodecName | asoc/codecs/swr-dmic.c:521-524 | the index of the first listed codec name equal to the node's, or the list length if none is |
| SwrDmicProbe.NameBuffer | asoc/codecs/swr-dmic.c:537-556 | the buffer holds strlen(template) characters as written, one more with the terminator |
| SwrDmicProbe.DaiNameBufferRead | asoc/codecs/swr-dmic.c:537-545 | the terminated DAI buffer reads as swr_dmic_txN; the buffer as written has no NUL, so a read runs past its end |
| SwrDmicProbe.AifNameBufferRead | asoc/codecs/swr-dmic.c:548-556 | the terminated AIF buffer reads as "SWR_DMIC_AIFN Playback"; the buffer as written has no NUL |
| SwrDmicProbe.NamesDistinct | asoc/codecs/swr-dmic.c:545-556 | distinct codec indices give distinct DAI and AIF names |
| SwrDmicProbe.Register | asoc/codecs/swr-dmic.c:505-578 | the outcome after the device number is stored is AfterDevNum |
| SwrDmicProbe.Probe | asoc/codecs/swr-dmic.c:445-585 | the outcome is ProbeOutcome; the device number is stored iff it was read; the private data is attached iff allocated |
| SwrDmicProbe.RegisteredDaiMatchesCodec | asoc/codecs/swr-dmic.c:521-559 | a registered DAI has the index of the first matching codec name as id and its names built from that index, after the device number was stored |
| SwrDmicProbe.UnknownCodecNameReportsSuccess | asoc/codecs/swr-dmic.c:524-526 | as written, every codec name missing from the list removes the device and registers nothing, yet the probe returns 0; "swr-dmic-06" is such a name |
| SwrDmicProbe.CheckedProbeSucceedsIffRegistered | asoc/codecs/swr-dmic.c:445-585 | corrected probe: returns 0 iff a DAI was registered and the device kept, and the registered names read as intended |

## Left out

- Logging (`mlme_err`, `mlme_debug`, `dev_dbg`, `pr_debug`) and all `CM_PREFIX` formatting: no effect on state or results.
- Feature switches: `WLAN_FEATURE_FILS_SK`, `FEATURE_WLAN_ESE` and `FEATURE_CM_ENABLE` are taken as enabled. The disabled stubs only return SUCCESS.
- The bodies of called services. Examples are the state machines, the object manager, BLM, scan, regulatory, the policy manager, TDLS, P2P, OS interface, CSR, the PMKSA cache, SoundWire core, pin control and the device tree. Each is a parameter giving its answer, and the traces record the call.
- `cds_copy_hlp_info` and the HLP payload of the FILS parameters: only their presence and the ERP sequence number are modelled.
- The SSID that `cm_csr_roam_sync_rsp` writes into the response is a parameter (`csrSsid`), because CSR is outside this model.
- The AKM bitmap is modelled as the set of its set bits.
- Concurrency, locking and reference-count internals: a reference is an event in the trace.
- RoamRsp.FillRoamInfo, RoamRsp.FillRoamInfoChecked, RoamRsp.FillAllocated, RoamRsp.CopyIes, RoamRsp.CopyRicIe, RoamRsp.CopyTspecIe, RoamRsp.PopulateConnectIes, RoamRsp.CopyFrames, RoamSync.AfterFill, RoamSync.ConnectDone, RoamSync.WithRsp, RoamSync.WithCtx, RoamSync.Propagate, RoamSync.FwRoamSyncPropagation, RoamSync.FwRoamSyncPropagationChecked: require in-bounds frame offsets, RIC and TSPEC lengths (`ric_data_len + tspec_len` within `ric_tspec_data`) and key lengths (`WellFormed`, or its parts `IeOffsetsInBounds`, `RicTspecInBounds`, `KeyLengthsFit`). The code reads and writes out of bounds otherwise; the Findings rows give that case, and `ValidateRoamSyncInd` is the check that supplies the requirement.
- RoamSync.StartInitOnlyWithoutWaitForKey: the answer of `cm_csr_is_ss_wait_for_key` is a parameter (`waitForKey`) independent of the key plan. The key step changes the CSR substate (line 468, and the wait-for-key timer at lines 545-546) through calls into CSR, which is outside this model, so the lemma is about CSR's answer, not about whether the keys settled.
- RoamSync.PropKeys: the key step's psoc and MLME-object lookups stay independent answers. The key step reaches its psoc through the pdev, and that link is not part of the code shown.
- SwrDmicPorts.StrnstrFrom: a read past the string's terminator within the window is treated as a non-match. The kernel compares those bytes, but they cannot equal a NUL-free pattern.
- SwrDmic.SwrDmicPriv.TxModePut: the control value is read as the long of `value.integer.value[0]`. The union overlap with `value.enumerated.item[0]` is not modelled.
- `dmic_swr_ctrl`: the DAPM event switch (connect and disconnect port, data-path control) is a call into the SoundWire core and is not modelled. Only the port lookup it does first is (`CtrlPortType`).
- `swr_dmic_vdd_ctrl`, `swr_dmic_codec_probe`, `swr_dmic_codec_remove`, `swr_dmic_remove`, `swr_dmic_up`, `swr_dmic_down`, suspend and resume, the widget and route tables, and module init and exit: regulator, pin-control and registration plumbing outside the modelled core.
- SwrDmicProbe.Probe: a missing VDD node sets ret to -EINVAL, and the prefix read overwrites it at once, so the model has no such input. The 5 ms enumeration delay is not modelled.
- SwrDmicProbe.Probe: the component driver name and the name-prefix buffers are allocated zeroed and never filled; their contents are not modelled. The result of `snd_soc_lookup_component` is taken to be non-NULL.
- SwrDmic.SwrDevice.Reset: requires at least six replies of the device-number read, the most the loop can consume; the 1 ms sleep is counted, not timed.

## Findings

| source | as written | input that shows it | evidently intended | confidence | as-written member | corrected member |
|---|---|---|---|---|---|---|
| umac/mlme/connection_mgr/core/src/wlan_cm_roam_fw_sync.c:364 | the statuses of `cm_copy_tspec_ie` and (line 300) `cm_fill_fils_ie` are dropped | tspec_len > 0 with the TSPEC allocation failing: the fill returns SUCCESS with no TSPEC | a failed TSPEC or FILS allocation fails the fill | not executed | RoamRsp.TspecAndFilsFailuresIgnored | RoamRsp.FillRoamInfoChecked |
| umac/mlme/connection_mgr/core/src/wlan_cm_roam_fw_sync.c:634 | the status of `cm_process_roam_keys` is dropped | keys settled by the firmware, pmkid_cache allocation failing (lines 481-483): PMK not reconciled, propagation returns SUCCESS | an allocation failure in the key step fails the propagation like every other allocation failure; a failed pdev, psoc or MLME lookup stays non-fatal | not executed | RoamSync.KeyFailureReportedAsSuccess | RoamSync.FwRoamSyncPropagationChecked |
| umac/mlme/connection_mgr/core/src/wlan_cm_roam_fw_sync.c:700-705 | after fetching the psoc the code tests `pdev` again | pdev present, `wlan_pdev_get_psoc` returns NULL: the NULL psoc reaches the policy manager | test `psoc` | not executed | RoamSync.NullPsocPassedOn | RoamSync.FwRoamCompleteChecked |
| umac/mlme/connection_mgr/core/src/wlan_cm_roam_fw_sync.c:250-262 | frame offsets and lengths are never measured against event_data_len; likewise ric_data_len and tspec_len against ric_tspec_data (lines 310-320, 353-360) | beaconProbeRespLength 1 in an empty event buffer | reject indications whose frames, RIC or TSPEC lie outside their buffers (may be checked by a caller outside this model) | not executed | RoamInd.UncheckedIeOffset | RoamInd.ValidateRoamSyncInd |
| umac/mlme/connection_mgr/core/src/wlan_cm_roam_fw_sync.c:372-375 | kck_len (likewise kek_len, pmk_len) is only tested for zero before the copy | kck_len = MAX_KCK_LEN + 1 | reject key lengths longer than their arrays (may be checked by a caller outside this model) | not executed | RoamInd.UncheckedKeyLength | RoamInd.ValidateRoamSyncInd |
| asoc/codecs/swr-dmic.c:322 | the TX MODE value is stored unchecked and later indexes the port map as a u8 | TX MODE value -1: port id 255 | accept only items of the TX MODE enum that index the map | not executed | SwrDmic.TxModeUncheckedIndex | SwrDmic.SwrDmicPriv.TxModePutChecked |
| asoc/codecs/swr-dmic.c:537-556 | DAI and AIF name buffers are strlen bytes, with no room for the NUL | any matched codec, e.g. "swr-dmic-01": "swr_dmic_tx0" stored in 12 bytes | allocate and copy strlen + 1 bytes | not executed | SwrDmicProbe.DaiNameBufferRead | SwrDmicProbe.CheckedProbeSucceedsIffRegistered |
| asoc/codecs/swr-dmic.c:524-526 | an unlisted codec name jumps to dev_err with ret still 0 | codec name "swr-dmic-06" | return -EINVAL | not executed | SwrDmicProbe.UnknownCodecNameReportsSuccess | SwrDmicProbe.CheckedProbeSucceedsIffRegistered |

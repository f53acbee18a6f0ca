/** The entry points of firmware roam synchronisation in the connection
    manager: cm_fw_roam_sync_req, cm_fw_send_vdev_roam_event,
    cm_fw_roam_sync_start_ind (with cm_update_scan_mlme_on_roam),
    cm_fw_roam_sync_propagation and cm_fw_roam_complete. Each method
    returns its status and the calls it made, in order; each is specified
    by a trace function, and what the source promises about the calls is
    proved about that function. */
module RoamSync {
  import opened Common
  import opened RoamInd
  import opened RoamEvents
  import opened RoamRsp
  import opened RoamKeys

  // ---------------------------------------------------------------------------
  // Counting calls in traces

  lemma CountConcat(a: seq<Event>, b: seq<Event>, e: Event)
    ensures Count(a + b, e) == Count(a, e) + Count(b, e)
  {
    assert multiset(a + b) == multiset(a) + multiset(b);
  }

  lemma CountAbsent(t: seq<Event>, e: Event)
    requires e !in t
    ensures Count(t, e) == 0
  {
  }

  lemma QuietConcat(a: seq<Event>, b: seq<Event>)
    requires Quiet(a) && Quiet(b)
    ensures Quiet(a + b)
  {
  }

  /** A quiet stretch holds no lifecycle call. */
  lemma QuietCount(t: seq<Event>, e: Event)
    requires Quiet(t) && Lifecycle(e)
    ensures Count(t, e) == 0
  {
    assert e !in t;
  }

  // ---------------------------------------------------------------------------
  // cm_fw_roam_sync_req

  datatype SyncReqEnv = SyncReqEnv(
    vdevFound: bool,          // wlan_objmgr_get_vdev_by_id_from_psoc != NULL
    deliverStatus: QdfStatus) // cm_sm_deliver_event(WLAN_CM_SM_EV_ROAM_SYNC)

  function SyncReqStatus(env: SyncReqEnv): QdfStatus
  {
    if env.vdevFound then env.deliverStatus else ENullValue
  }

  /** The calls of cm_fw_roam_sync_req. */
  function SyncReqTrace(vdevId: VdevId, env: SyncReqEnv): seq<Event>
  {
    if !env.vdevFound then []
    else [VdevGetRef(vdevId), CmSmDeliver(EvRoamSync)]
         + (if env.deliverStatus.IsError()
            then [FwRoamAbortReq(vdevId), RoamStopReq(vdevId, ReasonRoamSynchFailed)] else [])
         + [VdevReleaseRef(vdevId)]
  }

  /** cm_fw_roam_sync_req: hands the firmware event to the connection state
      machine; a refused event aborts the roam in firmware and stops it. */
  method FwRoamSyncReq(vdevId: VdevId, env: SyncReqEnv) returns (status: QdfStatus, events: seq<Event>)
    ensures status == SyncReqStatus(env)
    ensures events == SyncReqTrace(vdevId, env)
  {
    if !env.vdevFound {
      return ENullValue, [];
    }
    events := [VdevGetRef(vdevId), CmSmDeliver(EvRoamSync)];
    status := env.deliverStatus;
    if status.IsError() {
      events := events + [FwRoamAbortReq(vdevId), RoamStopReq(vdevId, ReasonRoamSynchFailed)];
    }
    events := events + [VdevReleaseRef(vdevId)];
  }

  /** A missing vdev returns E_NULL_VALUE with no call; otherwise the vdev
      reference taken first is released exactly once, last, and the status
      is the delivery status. */
  lemma SyncReqReleasesOnce(vdevId: VdevId, env: SyncReqEnv)
    ensures !env.vdevFound ==> SyncReqStatus(env) == ENullValue && SyncReqTrace(vdevId, env) == []
    ensures env.vdevFound ==>
              var t := SyncReqTrace(vdevId, env);
              && SyncReqStatus(env) == env.deliverStatus
              && t[0] == VdevGetRef(vdevId) && t[|t| - 1] == VdevReleaseRef(vdevId)
              && Count(t, VdevGetRef(vdevId)) == 1 && Count(t, VdevReleaseRef(vdevId)) == 1
  {
    if env.vdevFound {
      var t := SyncReqTrace(vdevId, env);
      var mid := if env.deliverStatus.IsError()
                 then [FwRoamAbortReq(vdevId), RoamStopReq(vdevId, ReasonRoamSynchFailed)] else [];
      assert t == [VdevGetRef(vdevId), CmSmDeliver(EvRoamSync)] + mid + [VdevReleaseRef(vdevId)];
      CountConcat([VdevGetRef(vdevId), CmSmDeliver(EvRoamSync)] + mid, [VdevReleaseRef(vdevId)], VdevReleaseRef(vdevId));
      CountConcat([VdevGetRef(vdevId), CmSmDeliver(EvRoamSync)], mid, VdevReleaseRef(vdevId));
      CountConcat([VdevGetRef(vdevId), CmSmDeliver(EvRoamSync)] + mid, [VdevReleaseRef(vdevId)], VdevGetRef(vdevId));
      CountConcat([VdevGetRef(vdevId), CmSmDeliver(EvRoamSync)], mid, VdevGetRef(vdevId));
    }
  }

  /** A refused ROAM_SYNC aborts the firmware roam and then stops roaming,
      once each; an accepted one does neither. */
  lemma SyncReqAbortsThenStops(vdevId: VdevId, env: SyncReqEnv)
    ensures var t := SyncReqTrace(vdevId, env);
            && (FwRoamAbortReq(vdevId) in t <==> env.vdevFound && env.deliverStatus.IsError())
            && (RoamStopReq(vdevId, ReasonRoamSynchFailed) in t <==> env.vdevFound && env.deliverStatus.IsError())
            && Count(t, FwRoamAbortReq(vdevId)) <= 1
            && Count(t, RoamStopReq(vdevId, ReasonRoamSynchFailed)) <= 1
    ensures env.vdevFound && env.deliverStatus.IsError() ==>
              Precedes(SyncReqTrace(vdevId, env), FwRoamAbortReq(vdevId), RoamStopReq(vdevId, ReasonRoamSynchFailed))
  {
    var t := SyncReqTrace(vdevId, env);
    if env.vdevFound && env.deliverStatus.IsError() {
      assert t == [VdevGetRef(vdevId), CmSmDeliver(EvRoamSync), FwRoamAbortReq(vdevId),
                   RoamStopReq(vdevId, ReasonRoamSynchFailed), VdevReleaseRef(vdevId)];
      assert t[2] == FwRoamAbortReq(vdevId) && t[3] == RoamStopReq(vdevId, ReasonRoamSynchFailed);
    } else if env.vdevFound {
      assert t == [VdevGetRef(vdevId), CmSmDeliver(EvRoamSync), VdevReleaseRef(vdevId)];
    }
  }

  // ---------------------------------------------------------------------------
  // cm_fw_send_vdev_roam_event

  /** The first queued roam command: its id and the vdev it was issued for. */
  datatype RoamReq = RoamReq(cmId: CmId, vdevId: VdevId)

  datatype VdevRoamEnv = VdevRoamEnv(
    roamReq: Option<RoamReq>,  // cm_get_first_roam_command
    psocPresent: bool,         // wlan_vdev_get_psoc != NULL
    deliverStatus: QdfStatus)  // wlan_vdev_mlme_sm_deliver_evt(WLAN_VDEV_SM_EV_ROAM)

  /** The command id an abort names: the queued command's, or CM_ID_INVALID. */
  function AbortId(req: Option<RoamReq>): CmId
  {
    if req.Some? then req.value.cmId else CM_ID_INVALID
  }

  function VdevRoamStatus(env: VdevRoamEnv): QdfStatus
  {
    if env.roamReq.None? || !env.psocPresent then EFailure else env.deliverStatus
  }

  /** The calls of cm_fw_send_vdev_roam_event. */
  function VdevRoamTrace(env: VdevRoamEnv): seq<Event>
  {
    var delivered :=
      if env.roamReq.Some? && env.psocPresent
      then [VdevSmDeliver(EvVdevRoam)]
           + (if env.deliverStatus.IsError()
              then [RoamStopReq(env.roamReq.value.vdevId, ReasonRoamSynchFailed)] else [])
      else [];
    delivered + (if VdevRoamStatus(env).IsError() then [AbortFwRoam(AbortId(env.roamReq))] else [])
  }

  /** cm_fw_send_vdev_roam_event: forwards the roam to the vdev MLME state
      machine; every failure aborts the roam command. */
  method FwSendVdevRoamEvent(env: VdevRoamEnv) returns (status: QdfStatus, events: seq<Event>)
    ensures status == VdevRoamStatus(env)
    ensures events == VdevRoamTrace(env)
  {
    var cmId: CmId;
    events := [];
    if env.roamReq.None? {
      cmId := CM_ID_INVALID;
      status := EFailure;
    } else {
      cmId := env.roamReq.value.cmId;
      if !env.psocPresent {
        status := EFailure;
      } else {
        events := events + [VdevSmDeliver(EvVdevRoam)];
        status := env.deliverStatus;
        if status.IsError() {
          events := events + [RoamStopReq(env.roamReq.value.vdevId, ReasonRoamSynchFailed)];
        }
      }
    }
    // error:
    if status.IsError() {
      events := events + [AbortFwRoam(cmId)];
    }
  }

  /** With no roam command queued the call fails and aborts CM_ID_INVALID;
      the command is aborted exactly once iff the status is an error; the
      roam is stopped only when the MLME state machine refused the event. */
  lemma VdevRoamAbortsOnError(env: VdevRoamEnv)
    ensures env.roamReq.None? ==>
              VdevRoamStatus(env) == EFailure && VdevRoamTrace(env) == [AbortFwRoam(CM_ID_INVALID)]
    ensures Count(VdevRoamTrace(env), AbortFwRoam(AbortId(env.roamReq)))
              == (if VdevRoamStatus(env).IsError() then 1 else 0)
    ensures forall e :: e in VdevRoamTrace(env) && e.AbortFwRoam? ==> e.cmId == AbortId(env.roamReq)
    ensures (exists e :: e in VdevRoamTrace(env) && e.RoamStopReq?) <==>
              env.roamReq.Some? && env.psocPresent && env.deliverStatus.IsError()
  {
    var t := VdevRoamTrace(env);
    var a := AbortFwRoam(AbortId(env.roamReq));
    if env.roamReq.Some? && env.psocPresent {
      var stop := if env.deliverStatus.IsError()
                  then [RoamStopReq(env.roamReq.value.vdevId, ReasonRoamSynchFailed)] else [];
      var tail := if VdevRoamStatus(env).IsError() then [a] else [];
      assert t == [VdevSmDeliver(EvVdevRoam)] + stop + tail;
      CountConcat([VdevSmDeliver(EvVdevRoam)] + stop, tail, a);
      CountConcat([VdevSmDeliver(EvVdevRoam)], stop, a);
      if env.deliverStatus.IsError() {
        assert t[1].RoamStopReq?;
      }
    } else {
      assert t == [a];
    }
  }

  // ---------------------------------------------------------------------------
  // cm_update_scan_mlme_on_roam

  /** What the vdev reports when the scan entry is updated. */
  datatype ScanEnv = ScanEnv(
    pdevPresent: bool,           // wlan_vdev_get_pdev != NULL
    activeChanFreq: Option<nat>, // wlan_vdev_get_active_channel, its ch_freq
    ssid: Option<seq<Byte>>)     // wlan_vdev_mlme_get_ssid, None on error

  predicate ScanReady(scan: ScanEnv) { scan.pdevPresent && scan.activeChanFreq.Some? && scan.ssid.Some? }

  /** The calls of cm_update_scan_mlme_on_roam: the scan entry of `bssid`,
      on the active channel under the vdev's SSID, gets connection state
      `state`; without pdev, channel or SSID nothing is updated. */
  function ScanTrace(bssid: MacAddr, state: ScanConState, scan: ScanEnv): (t: seq<Event>)
    ensures Quiet(t)
    ensures |t| <= 1
    ensures forall e :: e in t ==> e.ScanUpdateMlme? && e.bssid == bssid && e.conState == state
  {
    if ScanReady(scan) then [ScanUpdateMlme(bssid, scan.ssid.value, scan.activeChanFreq.value, state)] else []
  }

  method UpdateScanMlmeOnRoam(bssid: MacAddr, state: ScanConState, scan: ScanEnv) returns (events: seq<Event>)
    ensures events == ScanTrace(bssid, state, scan)
  {
    if !scan.pdevPresent {
      return [];
    }
    if scan.activeChanFreq.None? {
      return [];
    }
    if scan.ssid.None? {
      return [];
    }
    events := [ScanUpdateMlme(bssid, scan.ssid.value, scan.activeChanFreq.value, state)];
  }

  // ---------------------------------------------------------------------------
  // cm_fw_roam_sync_start_ind

  datatype StartIndEnv = StartIndEnv(
    connectedBssid: MacAddr,       // wlan_mlme_get_bssid_vdev_id: the BSSID being left
    scan: ScanEnv,
    stateChangeStatus: QdfStatus)  // wlan_cm_roam_state_change(WLAN_ROAM_SYNCH_IN_PROG)

  /** The reject-list entry for an AP the station was kicked out of. */
  function KickoutEntry(bssid: MacAddr): RejectApInfo
  {
    RejectApInfo(bssid, DriverAvoidType, ReasonStaKickout, AddedByDriver)
  }

  /** The calls of cm_fw_roam_sync_start_ind. */
  function StartIndTrace(vdevId: VdevId, ind: RoamSyncInd, env: StartIndEnv): seq<Event>
  {
    [BlmUpdateConnectParams(env.connectedBssid, BlmApDisconnected)]
    + (if IsRoamReasonStaKickout(ind.roamReason) then [BlmAddToRejectList(KickoutEntry(env.connectedBssid))] else [])
    + ScanTrace(env.connectedBssid, ScanEntryConStateNone, env.scan)
    + [RoamStateChange(vdevId, RoamSynchInProg, ReasonRoamHandoffDone), OsifRoamSyncInd]
  }

  /** cm_fw_roam_sync_start_ind: cleans up after the BSSID being left and
      moves roaming to WLAN_ROAM_SYNCH_IN_PROG. */
  method FwRoamSyncStartInd(vdevId: VdevId, ind: RoamSyncInd, env: StartIndEnv) returns (status: QdfStatus, events: seq<Event>)
    ensures status == env.stateChangeStatus
    ensures events == StartIndTrace(vdevId, ind, env)
  {
    events := [BlmUpdateConnectParams(env.connectedBssid, BlmApDisconnected)];
    if IsRoamReasonStaKickout(ind.roamReason) {
      var apInfo := RejectApInfo(env.connectedBssid, DriverAvoidType, ReasonStaKickout, AddedByDriver);
      events := events + [BlmAddToRejectList(apInfo)];
    }
    var scanEvents := UpdateScanMlmeOnRoam(env.connectedBssid, ScanEntryConStateNone, env.scan);
    events := events + scanEvents;
    status := env.stateChangeStatus;
    events := events + [RoamStateChange(vdevId, RoamSynchInProg, ReasonRoamHandoffDone)];
    events := events + [OsifRoamSyncInd];
  }

  /** The BSSID being left is marked disconnected first, and it is put on
      the reject list, as a driver-added kickout, iff the roam reason is a
      kickout; its scan entry, if updated, is set to NONE. */
  lemma StartIndCleansUpOldBssid(vdevId: VdevId, ind: RoamSyncInd, env: StartIndEnv)
    ensures var t := StartIndTrace(vdevId, ind, env);
            && t[0] == BlmUpdateConnectParams(env.connectedBssid, BlmApDisconnected)
            && ((exists e :: e in t && e.BlmAddToRejectList?) <==> IsRoamReasonStaKickout(ind.roamReason))
            && (forall e :: e in t && e.BlmAddToRejectList? ==> e.info == KickoutEntry(env.connectedBssid))
            && (forall e :: e in t && e.ScanUpdateMlme? ==>
                  e.bssid == env.connectedBssid && e.conState == ScanEntryConStateNone)
  {
    var t := StartIndTrace(vdevId, ind, env);
    if IsRoamReasonStaKickout(ind.roamReason) {
      assert t[1].BlmAddToRejectList?;
    }
  }

  /** The roam state moves to SYNCH_IN_PROG exactly once and the OS
      interface is told last; nothing of the lifecycle is touched. */
  lemma StartIndEntersSynchInProg(vdevId: VdevId, ind: RoamSyncInd, env: StartIndEnv)
    ensures var t := StartIndTrace(vdevId, ind, env);
            && Count(t, RoamStateChange(vdevId, RoamSynchInProg, ReasonRoamHandoffDone)) == 1
            && t[|t| - 1] == OsifRoamSyncInd
            && Quiet(t)
  {
    var t := StartIndTrace(vdevId, ind, env);
    var sc := RoamStateChange(vdevId, RoamSynchInProg, ReasonRoamHandoffDone);
    var rej := if IsRoamReasonStaKickout(ind.roamReason) then [BlmAddToRejectList(KickoutEntry(env.connectedBssid))] else [];
    var scan := ScanTrace(env.connectedBssid, ScanEntryConStateNone, env.scan);
    var head := [BlmUpdateConnectParams(env.connectedBssid, BlmApDisconnected)] + rej + scan;
    assert t == head + [sc, OsifRoamSyncInd];
    QuietConcat([BlmUpdateConnectParams(env.connectedBssid, BlmApDisconnected)], rej);
    QuietConcat([BlmUpdateConnectParams(env.connectedBssid, BlmApDisconnected)] + rej, scan);
    QuietConcat(head, [sc, OsifRoamSyncInd]);
    CountConcat([BlmUpdateConnectParams(env.connectedBssid, BlmApDisconnected)], rej, sc);
    CountConcat([BlmUpdateConnectParams(env.connectedBssid, BlmApDisconnected)] + rej, scan, sc);
    CountAbsent(scan, sc);
    CountAbsent(rej, sc);
    CountConcat(head, [sc, OsifRoamSyncInd], sc);
    assert Count([sc, OsifRoamSyncInd], sc) == 1;
  }

  /** The scan entry of the old BSSID is set to NONE before the roam state
      moves to SYNCH_IN_PROG. */
  lemma StartIndScanBeforeStateChange(vdevId: VdevId, ind: RoamSyncInd, env: StartIndEnv)
    requires ScanReady(env.scan)
    ensures Precedes(StartIndTrace(vdevId, ind, env),
                     ScanUpdateMlme(env.connectedBssid, env.scan.ssid.value, env.scan.activeChanFreq.value,
                                    ScanEntryConStateNone),
                     RoamStateChange(vdevId, RoamSynchInProg, ReasonRoamHandoffDone))
  {
    var t := StartIndTrace(vdevId, ind, env);
    var sc := RoamStateChange(vdevId, RoamSynchInProg, ReasonRoamHandoffDone);
    var rej := if IsRoamReasonStaKickout(ind.roamReason) then [BlmAddToRejectList(KickoutEntry(env.connectedBssid))] else [];
    var scan := ScanTrace(env.connectedBssid, ScanEntryConStateNone, env.scan);
    var head := [BlmUpdateConnectParams(env.connectedBssid, BlmApDisconnected)] + rej + scan;
    assert t == head + [sc, OsifRoamSyncInd];
    var n := |head| - 1;
    assert t[n] == scan[0];
    assert t[n + 1] == sc;
  }

  // ---------------------------------------------------------------------------
  // cm_fw_roam_sync_propagation

  datatype PropagationEnv = PropagationEnv(
    vdevFound: bool,            // wlan_objmgr_get_vdev_by_id_from_psoc != NULL
    pdevPresent: bool,          // wlan_vdev_get_pdev != NULL
    cmCtxPresent: bool,         // cm_get_cm_ctx != NULL
    roamReq: Option<CmId>,      // cm_get_first_roam_command, its cm_id
    allocs: Allocs,             // the allocations of the response and its parts
    scan: ScanEnv,              // the vdev as cm_update_scan_mlme_on_roam sees it
    csrSsid: seq<Byte>,         // connect_rsp.ssid once cm_csr_roam_sync_rsp has run
    keys: KeysEnv,              // what cm_process_roam_keys consults besides the pdev
    waitForKey: bool,           // cm_csr_is_ss_wait_for_key
    roamDoneStatus: QdfStatus)  // cm_sm_deliver_event_sync(WLAN_CM_SM_EV_ROAM_DONE)

  /** The command id the propagation works for (CM_ID_INVALID with none queued). */
  function PropCmId(env: PropagationEnv): CmId
  {
    if env.roamReq.Some? then env.roamReq.value else CM_ID_INVALID
  }

  /** What the key step sees. It asks the same vdev for its pdev, so it
      finds the pdev the propagation has already found; the pdev answer of
      `env.keys` plays no part. */
  function PropKeys(env: PropagationEnv): (k: KeysEnv)
    ensures k.pdevPresent == env.pdevPresent
    ensures k.(pdevPresent := env.keys.pdevPresent) == env.keys
  {
    env.keys.(pdevPresent := env.pdevPresent)
  }

  /** The key material the response carries after a successful fill. */
  function IndKeyMaterial(ind: RoamSyncInd): KeyMaterial
    requires Shaped(ind) && KeyLengthsFit(ind)
  {
    KeyMaterial(ind.authStatus, ind.pmk[..ind.pmkLen], ind.pmkid)
  }

  /** The status of the fill: cm_fill_roam_info as written, or (strict) a
      fill that also fails on the TSPEC and FILS allocations. */
  function FillStatus(ind: RoamSyncInd, a: Allocs, strict: bool): QdfStatus
  {
    if strict then FillCheckedOutcome(ind, a) else FillOutcome(ind, a)
  }

  /** The key step stops the propagation: only when strict and its
      pmkid_cache allocation failed. A failed lookup of psoc or MLME object
      is not fatal: the keys are then left to the supplicant. */
  predicate KeysStop(ind: RoamSyncInd, env: PropagationEnv, strict: bool)
    requires Shaped(ind) && KeyLengthsFit(ind)
  {
    strict && KeyStatus(IndKeyMaterial(ind), PropKeys(env)) == ENoMem
  }

  /** The status after a successful fill. */
  function AfterFillStatus(ind: RoamSyncInd, env: PropagationEnv, strict: bool): QdfStatus
    requires Shaped(ind) && KeyLengthsFit(ind)
  {
    if KeysStop(ind, env, strict) then ENoMem else env.roamDoneStatus
  }

  /** The status once the response has been allocated. */
  function RspStatus(ind: RoamSyncInd, env: PropagationEnv, strict: bool): QdfStatus
    requires WellFormed(ind)
  {
    var fill := FillStatus(ind, env.allocs, strict);
    if fill.IsError() then fill else AfterFillStatus(ind, env, strict)
  }

  /** The status once cm_ctx has been resolved. */
  function CtxStatus(ind: RoamSyncInd, env: PropagationEnv, strict: bool): QdfStatus
    requires WellFormed(ind)
  {
    if env.roamReq.None? then EFailure
    else if !env.allocs.connectRsp then ENoMem
    else RspStatus(ind, env, strict)
  }

  /** cm_ctx has been resolved: the vdev, its pdev and its cm_ctx exist. */
  predicate CtxResolved(env: PropagationEnv) { env.vdevFound && env.pdevPresent && env.cmCtxPresent }

  /** The status cm_fw_roam_sync_propagation returns. */
  function PropagationStatus(ind: RoamSyncInd, env: PropagationEnv, strict: bool): QdfStatus
    requires WellFormed(ind)
  {
    if !env.vdevFound then ENullValue
    else if !CtxResolved(env) then EFailure
    else CtxStatus(ind, env, strict)
  }

  /** The consumers told of the new connection, then the RSO restart unless
      the supplicant still has to install keys. */
  function NotifyTrace(vdevId: VdevId, ind: RoamSyncInd, env: PropagationEnv): (t: seq<Event>)
    ensures Quiet(t)
  {
    [OsifConnectComplete, IfMgrConnectComplete(Success), BlmConnectComplete,
     ConnectInfo(ind.bssid, env.csrSsid, ind.chanFreq), TdlsNotifyStaConnect(vdevId), P2pStatusConnect]
    + (if !env.waitForKey then [RoamStartInitOnConnect(vdevId)] else [])
  }

  /** The consumers told, the firmware told the sync is complete, then
      ROAM_DONE; the command is removed only if ROAM_DONE was accepted. */
  function DoneTrace(vdevId: VdevId, ind: RoamSyncInd, cmId: CmId, env: PropagationEnv): seq<Event>
  {
    NotifyTrace(vdevId, ind, env)
    + [SendRoamSyncCompleteCmd(vdevId), CmSmDeliver(EvRoamDone)]
    + (if env.roamDoneStatus.IsError() then [] else [OsifRoamComplete, RemoveCmd(cmId)])
  }

  /** cm_update_scan_db_on_roam_success, cm_csr_roam_sync_rsp and the key step. */
  function ScanAndKeysTrace(vdevId: VdevId, ind: RoamSyncInd, cmId: CmId, env: PropagationEnv): (t: seq<Event>)
    requires WellFormed(ind)
    ensures Quiet(t)
  {
    KeyEventsQuiet(vdevId, IndKeyMaterial(ind), PropKeys(env));
    [InformBcnProbe(BufOf(BcnProbeIes(ind)), ind.chanFreq, ind.rssi, cmId)]
    + ScanTrace(ind.bssid, ScanEntryConStateAssoc, env.scan)
    + [CsrRoamSyncRsp]
    + KeyEvents(vdevId, IndKeyMaterial(ind), PropKeys(env))
  }

  /** The calls after a successful fill, up to the error label. */
  function AfterFillTrace(vdevId: VdevId, ind: RoamSyncInd, cmId: CmId, env: PropagationEnv, strict: bool): seq<Event>
    requires WellFormed(ind)
  {
    ScanAndKeysTrace(vdevId, ind, cmId, env)
    + if KeysStop(ind, env, strict) then [] else DoneTrace(vdevId, ind, cmId, env)
  }

  /** The calls from the allocation of the response to its free. */
  function RspTrace(vdevId: VdevId, ind: RoamSyncInd, env: PropagationEnv, strict: bool): seq<Event>
    requires WellFormed(ind)
  {
    if FillStatus(ind, env.allocs, strict).IsError() then []
    else AfterFillTrace(vdevId, ind, PropCmId(env), env, strict)
  }

  /** The calls from the roam-command lookup to the release of the vdev (excluded). */
  function CtxTrace(vdevId: VdevId, ind: RoamSyncInd, env: PropagationEnv, strict: bool): seq<Event>
    requires WellFormed(ind)
  {
    (if env.roamReq.Some? && env.allocs.connectRsp
     then [AllocConnectRsp] + RspTrace(vdevId, ind, env, strict) + [FreeConnectRsp]
     else [])
    + if CtxStatus(ind, env, strict).IsError()
      then [RoamStopReq(vdevId, ReasonRoamSynchFailed), AbortFwRoam(PropCmId(env))] else []
  }

  /** The calls of cm_fw_roam_sync_propagation. */
  function PropagationTrace(vdevId: VdevId, ind: RoamSyncInd, env: PropagationEnv, strict: bool): seq<Event>
    requires WellFormed(ind)
  {
    if !env.vdevFound then []
    else [VdevGetRef(vdevId)]
         + (if CtxResolved(env) then CtxTrace(vdevId, ind, env, strict) else [])
         + [VdevReleaseRef(vdevId)]
  }

  /** The key step touches nothing of the lifecycle. */
  lemma KeyEventsQuiet(vdevId: VdevId, k: KeyMaterial, env: KeysEnv)
    ensures Quiet(KeyEvents(vdevId, k, env))
  {
  }

  /** The key material of a filled response is the indication's. */
  lemma FilledKeyMaterial(info: RoamSyncInfo, ind: RoamSyncInd)
    requires Shaped(ind) && KeyLengthsFit(ind)
    requires KeysCopied(info, ind)
    ensures info.pmkLen <= info.pmk.Length
    ensures KeyMaterialOf(info) == IndKeyMaterial(ind)
  {
    assert info.pmkid[..] == ind.pmkid;
  }

  /** The calls after a successful fill: scan database, CSR, keys, then
      the rest unless `strict` stops on a failed key step. */
  method AfterFill(vdevId: VdevId, rsp: JoinRsp, ind: RoamSyncInd, cmId: CmId, env: PropagationEnv, strict: bool)
    returns (status: QdfStatus, events: seq<Event>)
    requires WellFormed(ind)
    requires HeaderFilled(rsp, ind, cmId) && rsp.bcnProbeRsp == BufOf(BcnProbeIes(ind))
    requires rsp.roamingInfo != null && KeysCopied(rsp.roamingInfo, ind)
    ensures status == AfterFillStatus(ind, env, strict)
    ensures events == AfterFillTrace(vdevId, ind, cmId, env, strict)
  {
    FilledKeyMaterial(rsp.roamingInfo, ind);
    // cm_update_scan_db_on_roam_success (cm_ctx is known to exist here)
    events := [InformBcnProbe(rsp.bcnProbeRsp, rsp.freq, ind.rssi, cmId)];
    var scanEvents := UpdateScanMlmeOnRoam(rsp.bssid, ScanEntryConStateAssoc, env.scan);
    events := events + scanEvents;
    events := events + [CsrRoamSyncRsp];
    var keyStatus, keyEvents := ProcessRoamKeys(vdevId, rsp.roamingInfo, PropKeys(env));
    events := events + keyEvents;
    if strict && keyStatus == ENoMem {
      return keyStatus, events;
    }
    var rest;
    status, rest := ConnectDone(vdevId, ind, rsp.bssid, rsp.freq, rsp.connectStatus, cmId, env);
    events := events + rest;
  }

  /** The tail of the propagation: tell the consumers, restart RSO unless
      keys are awaited, tell the firmware, deliver ROAM_DONE and, if it was
      accepted, complete and remove the command. */
  method ConnectDone(vdevId: VdevId, ind: RoamSyncInd, bssid: MacAddr, freq: nat, connectStatus: QdfStatus,
                     cmId: CmId, env: PropagationEnv)
    returns (status: QdfStatus, events: seq<Event>)
    requires bssid == ind.bssid && freq == ind.chanFreq && connectStatus == Success
    ensures status == env.roamDoneStatus
    ensures events == DoneTrace(vdevId, ind, cmId, env)
  {
    events := [OsifConnectComplete, IfMgrConnectComplete(connectStatus), BlmConnectComplete];
    events := events + [ConnectInfo(bssid, env.csrSsid, freq)];
    events := events + [TdlsNotifyStaConnect(vdevId), P2pStatusConnect];
    if !env.waitForKey {
      events := events + [RoamStartInitOnConnect(vdevId)];
    }
    events := events + [SendRoamSyncCompleteCmd(vdevId), CmSmDeliver(EvRoamDone)];
    status := env.roamDoneStatus;
    if status.IsError() {
      return;
    }
    events := events + [OsifRoamComplete, RemoveCmd(cmId)];
  }

  /** From the allocation of the response to the error label: fill it,
      then, if that succeeded, run the rest. */
  method WithRsp(vdevId: VdevId, ind: RoamSyncInd, env: PropagationEnv, strict: bool)
    returns (status: QdfStatus, events: seq<Event>)
    requires WellFormed(ind)
    ensures status == RspStatus(ind, env, strict)
    ensures events == RspTrace(vdevId, ind, env, strict)
  {
    var cmId := PropCmId(env);
    var rsp := new JoinRsp();
    if strict {
      status := FillRoamInfoChecked(ind, rsp, cmId, env.allocs);
    } else {
      status := FillRoamInfo(ind, rsp, cmId, env.allocs);
    }
    if status.IsError() {
      return status, [];
    }
    status, events := AfterFill(vdevId, rsp, ind, cmId, env, strict);
  }

  /** From the roam-command lookup to the error label, which frees the
      response and, on failure, stops the roam and aborts the command. */
  method WithCtx(vdevId: VdevId, ind: RoamSyncInd, env: PropagationEnv, strict: bool)
    returns (status: QdfStatus, events: seq<Event>)
    requires WellFormed(ind)
    ensures status == CtxStatus(ind, env, strict)
    ensures events == CtxTrace(vdevId, ind, env, strict)
  {
    var cmId: CmId;
    events := [];
    if env.roamReq.None? {
      cmId := CM_ID_INVALID;
      status := EFailure;
    } else {
      cmId := env.roamReq.value;
      if !env.allocs.connectRsp {
        status := ENoMem;
      } else {
        var rest;
        status, rest := WithRsp(vdevId, ind, env, strict);
        // error: the response is freed
        events := [AllocConnectRsp] + rest + [FreeConnectRsp];
      }
    }
    if status.IsError() {
      events := events + [RoamStopReq(vdevId, ReasonRoamSynchFailed), AbortFwRoam(cmId)];
    }
  }

  /** cm_fw_roam_sync_propagation; `strict` selects the evidently intended
      variant that does not ignore the TSPEC, FILS and key statuses. */
  method Propagate(vdevId: VdevId, ind: RoamSyncInd, env: PropagationEnv, strict: bool)
    returns (status: QdfStatus, events: seq<Event>)
    requires WellFormed(ind)
    ensures status == PropagationStatus(ind, env, strict)
    ensures events == PropagationTrace(vdevId, ind, env, strict)
  {
    if !env.vdevFound {
      return ENullValue, [];
    }
    events := [VdevGetRef(vdevId)];
    if !env.pdevPresent || !env.cmCtxPresent {
      status := EFailure;
    } else {
      var rest;
      status, rest := WithCtx(vdevId, ind, env, strict);
      events := events + rest;
    }
    // rel_ref:
    events := events + [VdevReleaseRef(vdevId)];
  }

  /** cm_fw_roam_sync_propagation as written. */
  method FwRoamSyncPropagation(vdevId: VdevId, ind: RoamSyncInd, env: PropagationEnv)
    returns (status: QdfStatus, events: seq<Event>)
    requires WellFormed(ind)
    ensures status == PropagationStatus(ind, env, false)
    ensures events == PropagationTrace(vdevId, ind, env, false)
  {
    status, events := Propagate(vdevId, ind, env, false);
  }

  /** cm_fw_roam_sync_propagation with the TSPEC, FILS and key statuses
      checked: a successful roam has every element it announced, and its
      key step did not run out of memory. */
  method FwRoamSyncPropagationChecked(vdevId: VdevId, ind: RoamSyncInd, env: PropagationEnv)
    returns (status: QdfStatus, events: seq<Event>)
    requires WellFormed(ind)
    ensures status == PropagationStatus(ind, env, true)
    ensures events == PropagationTrace(vdevId, ind, env, true)
    ensures status.Success? ==>
              AllocsComplete(ind, env.allocs) && KeyStatus(IndKeyMaterial(ind), PropKeys(env)) != ENoMem
  {
    status, events := Propagate(vdevId, ind, env, true);
  }

  // ---------------------------------------------------------------------------
  // What the propagation promises

  /** The tail of the propagation removes the command iff ROAM_DONE was
      accepted; the rest of it touches nothing of the lifecycle. */
  lemma DoneLifecycle(vdevId: VdevId, ind: RoamSyncInd, cmId: CmId, env: PropagationEnv)
    ensures LifecycleCalls(DoneTrace(vdevId, ind, cmId, env))
              == if env.roamDoneStatus.IsError() then [] else [RemoveCmd(cmId)]
  {
    var n := NotifyTrace(vdevId, ind, env);
    var fin := [SendRoamSyncCompleteCmd(vdevId), CmSmDeliver(EvRoamDone)];
    var tail := if env.roamDoneStatus.IsError() then [] else [OsifRoamComplete, RemoveCmd(cmId)];
    QuietHasNoLifecycleCalls(n + fin);
    LifecycleCallsConcat(n + fin, tail);
    if !env.roamDoneStatus.IsError() {
      LifecycleCallsConcat([OsifRoamComplete], [RemoveCmd(cmId)]);
      LifecycleCallsSingle(OsifRoamComplete);
      LifecycleCallsSingle(RemoveCmd(cmId));
    }
  }

  /** After a successful fill the only lifecycle call is the removal of the
      command, made iff that stretch succeeds. */
  lemma AfterFillLifecycle(vdevId: VdevId, ind: RoamSyncInd, cmId: CmId, env: PropagationEnv, strict: bool)
    requires WellFormed(ind)
    ensures LifecycleCalls(AfterFillTrace(vdevId, ind, cmId, env, strict))
              == if AfterFillStatus(ind, env, strict).IsError() then [] else [RemoveCmd(cmId)]
  {
    var sk := ScanAndKeysTrace(vdevId, ind, cmId, env);
    var rest := if KeysStop(ind, env, strict) then [] else DoneTrace(vdevId, ind, cmId, env);
    QuietHasNoLifecycleCalls(sk);
    LifecycleCallsConcat(sk, rest);
    if !KeysStop(ind, env, strict) {
      DoneLifecycle(vdevId, ind, cmId, env);
    }
  }

  /** The lifecycle calls the propagation makes once cm_ctx exists: the
      response is allocated and freed (if its allocation succeeded), the
      command is removed in between on success, and the roam is stopped and
      the command aborted on failure. */
  function CtxLifecycleCalls(ind: RoamSyncInd, vdevId: VdevId, env: PropagationEnv, strict: bool): seq<Event>
    requires WellFormed(ind)
  {
    var ok := !CtxStatus(ind, env, strict).IsError();
    (if env.roamReq.Some? && env.allocs.connectRsp
     then [AllocConnectRsp] + (if ok then [RemoveCmd(PropCmId(env))] else []) + [FreeConnectRsp]
     else [])
    + (if ok then [] else [RoamStopReq(vdevId, ReasonRoamSynchFailed), AbortFwRoam(PropCmId(env))])
  }

  lemma CtxLifecycle(vdevId: VdevId, ind: RoamSyncInd, env: PropagationEnv, strict: bool)
    requires WellFormed(ind)
    ensures LifecycleCalls(CtxTrace(vdevId, ind, env, strict)) == CtxLifecycleCalls(ind, vdevId, env, strict)
  {
    var cmId := PropCmId(env);
    var err := CtxStatus(ind, env, strict).IsError();
    var rsp := RspTrace(vdevId, ind, env, strict);
    var tail := if err then [RoamStopReq(vdevId, ReasonRoamSynchFailed), AbortFwRoam(cmId)] else [];
    assert LifecycleCalls(tail) == tail by {
      if err {
        LifecycleCallsConcat([RoamStopReq(vdevId, ReasonRoamSynchFailed)], [AbortFwRoam(cmId)]);
        LifecycleCallsSingle(RoamStopReq(vdevId, ReasonRoamSynchFailed));
        LifecycleCallsSingle(AbortFwRoam(cmId));
      }
    }
    if env.roamReq.Some? && env.allocs.connectRsp {
      var mid := [AllocConnectRsp] + rsp + [FreeConnectRsp];
      assert CtxTrace(vdevId, ind, env, strict) == mid + tail;
      LifecycleCallsConcat(mid, tail);
      LifecycleCallsConcat([AllocConnectRsp] + rsp, [FreeConnectRsp]);
      LifecycleCallsConcat([AllocConnectRsp], rsp);
      LifecycleCallsSingle(AllocConnectRsp);
      LifecycleCallsSingle(FreeConnectRsp);
      assert LifecycleCalls(rsp) == if err then [] else [RemoveCmd(cmId)] by {
        if !FillStatus(ind, env.allocs, strict).IsError() {
          AfterFillLifecycle(vdevId, ind, cmId, env, strict);
        }
      }
    } else {
      assert CtxTrace(vdevId, ind, env, strict) == tail;
    }
  }

  /** The lifecycle calls of the whole propagation: a missing vdev gives
      E_NULL_VALUE and none; otherwise the vdev reference is taken first and
      released last, exactly once each, and without pdev or cm_ctx nothing
      else happens (E_FAILURE). */
  lemma PropagationLifecycle(vdevId: VdevId, ind: RoamSyncInd, env: PropagationEnv, strict: bool)
    requires WellFormed(ind)
    ensures !env.vdevFound ==> PropagationStatus(ind, env, strict) == ENullValue
                               && PropagationTrace(vdevId, ind, env, strict) == []
    ensures env.vdevFound && !CtxResolved(env) ==>
              PropagationStatus(ind, env, strict) == EFailure
              && PropagationTrace(vdevId, ind, env, strict) == [VdevGetRef(vdevId), VdevReleaseRef(vdevId)]
    ensures env.vdevFound && CtxResolved(env) ==>
              PropagationStatus(ind, env, strict) == CtxStatus(ind, env, strict)
              && LifecycleCalls(PropagationTrace(vdevId, ind, env, strict))
                 == [VdevGetRef(vdevId)] + CtxLifecycleCalls(ind, vdevId, env, strict) + [VdevReleaseRef(vdevId)]
  {
    if env.vdevFound && CtxResolved(env) {
      var c := CtxTrace(vdevId, ind, env, strict);
      assert PropagationTrace(vdevId, ind, env, strict) == [VdevGetRef(vdevId)] + c + [VdevReleaseRef(vdevId)];
      LifecycleCallsConcat([VdevGetRef(vdevId)] + c, [VdevReleaseRef(vdevId)]);
      LifecycleCallsConcat([VdevGetRef(vdevId)], c);
      LifecycleCallsSingle(VdevGetRef(vdevId));
      LifecycleCallsSingle(VdevReleaseRef(vdevId));
      CtxLifecycle(vdevId, ind, env, strict);
    }
  }

  /** A successful propagation allocates the response, removes the command,
      frees the response, and neither stops the roam nor aborts the command. */
  lemma PropagationSuccessLifecycle(vdevId: VdevId, ind: RoamSyncInd, env: PropagationEnv, strict: bool)
    requires WellFormed(ind)
    requires PropagationStatus(ind, env, strict).Success?
    ensures LifecycleCalls(PropagationTrace(vdevId, ind, env, strict))
              == [VdevGetRef(vdevId), AllocConnectRsp, RemoveCmd(PropCmId(env)), FreeConnectRsp, VdevReleaseRef(vdevId)]
  {
    PropagationLifecycle(vdevId, ind, env, strict);
  }

  /** A propagation that fails once cm_ctx exists frees the response iff it
      was allocated, stops the roam and aborts the command, and never
      removes the command. */
  lemma PropagationFailureLifecycle(vdevId: VdevId, ind: RoamSyncInd, env: PropagationEnv, strict: bool)
    requires WellFormed(ind)
    requires env.vdevFound && CtxResolved(env) && PropagationStatus(ind, env, strict).IsError()
    ensures LifecycleCalls(PropagationTrace(vdevId, ind, env, strict))
              == [VdevGetRef(vdevId)]
                 + (if env.roamReq.Some? && env.allocs.connectRsp then [AllocConnectRsp, FreeConnectRsp] else [])
                 + [RoamStopReq(vdevId, ReasonRoamSynchFailed), AbortFwRoam(PropCmId(env)), VdevReleaseRef(vdevId)]
  {
    PropagationLifecycle(vdevId, ind, env, strict);
  }

  /** RSO is restarted after a successful fill iff the stretch is not cut
      short by the keys and no keys are awaited. */
  lemma StartInitAfterFill(vdevId: VdevId, ind: RoamSyncInd, cmId: CmId, env: PropagationEnv, strict: bool)
    requires WellFormed(ind)
    ensures (RoamStartInitOnConnect(vdevId) in AfterFillTrace(vdevId, ind, cmId, env, strict))
              == (!KeysStop(ind, env, strict) && !env.waitForKey)
  {
    var sk := ScanAndKeysTrace(vdevId, ind, cmId, env);
    var k := KeyEvents(vdevId, IndKeyMaterial(ind), PropKeys(env));
    assert sk == [InformBcnProbe(BufOf(BcnProbeIes(ind)), ind.chanFreq, ind.rssi, cmId)]
                 + ScanTrace(ind.bssid, ScanEntryConStateAssoc, env.scan) + [CsrRoamSyncRsp] + k;
    assert forall e :: e in k ==> !e.RoamStartInitOnConnect?;
    assert RoamStartInitOnConnect(vdevId) !in sk;
    if !KeysStop(ind, env, strict) {
      var d := DoneTrace(vdevId, ind, cmId, env);
      assert AfterFillTrace(vdevId, ind, cmId, env, strict) == sk + d;
      assert RoamStartInitOnConnect(vdevId) in d <==> !env.waitForKey;
    } else {
      assert AfterFillTrace(vdevId, ind, cmId, env, strict) == sk;
    }
  }

  /** RSO is restarted on the new connection only when no keys are awaited;
      on success it is restarted iff none are. */
  lemma StartInitOnlyWithoutWaitForKey(vdevId: VdevId, ind: RoamSyncInd, env: PropagationEnv, strict: bool)
    requires WellFormed(ind)
    ensures RoamStartInitOnConnect(vdevId) in PropagationTrace(vdevId, ind, env, strict) ==> !env.waitForKey
    ensures PropagationStatus(ind, env, strict).Success? ==>
              (RoamStartInitOnConnect(vdevId) in PropagationTrace(vdevId, ind, env, strict) <==> !env.waitForKey)
  {
    var s := RoamStartInitOnConnect(vdevId);
    var t := PropagationTrace(vdevId, ind, env, strict);
    if env.vdevFound && CtxResolved(env) {
      var rsp := RspTrace(vdevId, ind, env, strict);
      var ok := !CtxStatus(ind, env, strict).IsError();
      var tail := if ok then [] else [RoamStopReq(vdevId, ReasonRoamSynchFailed), AbortFwRoam(PropCmId(env))];
      var mid := if env.roamReq.Some? && env.allocs.connectRsp then [AllocConnectRsp] + rsp + [FreeConnectRsp] else [];
      assert t == [VdevGetRef(vdevId)] + mid + tail + [VdevReleaseRef(vdevId)];
      assert s in t <==> s in mid;
      if env.roamReq.Some? && env.allocs.connectRsp {
        assert s in mid <==> s in rsp;
        if !FillStatus(ind, env.allocs, strict).IsError() {
          StartInitAfterFill(vdevId, ind, PropCmId(env), env, strict);
        }
      }
    }
  }

  /** As written, the status does not depend on the key step nor on the
      TSPEC and FILS allocations: a roam whose keys were not processed, or
      whose response lacks the TSPEC or FILS element it announced, is still
      reported as a success. */
  lemma AsWrittenIgnoresKeysAndOptionalIes(ind: RoamSyncInd, env: PropagationEnv, keys: KeysEnv, tspec: bool, fils: bool)
    requires WellFormed(ind)
    ensures PropagationStatus(ind, env, false)
              == PropagationStatus(ind, env.(keys := keys, allocs := env.allocs.(tspec := tspec, fils := fils)), false)
  {
    TspecAndFilsFailuresIgnored(ind, env.allocs);
    TspecAndFilsFailuresIgnored(ind, env.allocs.(tspec := tspec, fils := fils));
  }

  /** The as-written propagation reports success although the key step
      could not allocate its pmkid_cache entry, so the PMK of the new AP
      was never reconciled; the checked one reports E_NOMEM. */
  lemma KeyFailureReportedAsSuccess(ind: RoamSyncInd, env: PropagationEnv)
    requires WellFormed(ind)
    requires CtxResolved(env) && env.roamReq.Some? && env.roamDoneStatus == Success
    requires env.allocs == Allocs(true, true, true, true, true, true, true, true)
    requires EnvReady(PropKeys(env)) && KeysSettled(ind.authStatus, env.keys.akm) && !env.keys.pmkidCacheAlloc
    ensures PropagationStatus(ind, env, false) == Success
    ensures KeyStatus(IndKeyMaterial(ind), PropKeys(env)) == ENoMem
    ensures PropagationStatus(ind, env, true) == ENoMem
  {
    assert !RicFails(ind, env.allocs) && !BcnFails(ind, env.allocs);
    assert !AssocRspFails(ind, env.allocs) && !AssocReqFails(ind, env.allocs);
    assert FillOutcome(ind, env.allocs) == Success;
  }

  /** The checked propagation succeeds only when the as-written one does,
      every announced element was allocated and the key step did not run
      out of memory; under those conditions the two agree. */
  lemma CheckedRefinesAsWritten(ind: RoamSyncInd, env: PropagationEnv)
    requires WellFormed(ind)
    ensures PropagationStatus(ind, env, true).Success? ==>
              && PropagationStatus(ind, env, false).Success?
              && AllocsComplete(ind, env.allocs)
              && KeyStatus(IndKeyMaterial(ind), PropKeys(env)) != ENoMem
    ensures AllocsComplete(ind, env.allocs) && KeyStatus(IndKeyMaterial(ind), PropKeys(env)) != ENoMem ==>
              PropagationStatus(ind, env, true) == PropagationStatus(ind, env, false)
  {
  }

  // ---------------------------------------------------------------------------
  // cm_fw_roam_complete

  datatype CompleteEnv = CompleteEnv(
    pdevPresent: bool,      // wlan_vdev_get_pdev != NULL
    psoc: Handle,           // wlan_pdev_get_psoc
    disabledForFreq: bool,  // wlan_reg_is_disable_for_freq(pdev, chan_freq)
    pktCapMode: bool)       // ucfg_pkt_capture_get_pktcap_mode != 0

  /** The RSO state after the roam: enabled if the firmware authenticated,
      otherwise INIT until the supplicant has set the keys. */
  function NextRsoState(authStatus: nat): (s: RoamState)
    ensures s == RsoEnabled <==> authStatus == ROAM_AUTH_STATUS_AUTHENTICATED
    ensures s != RsoEnabled ==> s == RoamInit
  {
    if authStatus == ROAM_AUTH_STATUS_AUTHENTICATED then RsoEnabled else RoamInit
  }

  function CompleteStatus(env: CompleteEnv): QdfStatus
  {
    if !env.pdevPresent || env.disabledForFreq then EFailure else Success
  }

  /** The calls of cm_fw_roam_complete. */
  function CompleteTrace(vdevId: VdevId, ind: RoamSyncInd, env: CompleteEnv): seq<Event>
  {
    if !env.pdevPresent then []
    else if env.disabledForFreq then [Disconnect(env.psoc, vdevId, CmRoamDisconnect, ReasonOperChannelBandChange)]
    else [PolicyUpdateConnectionInfo(env.psoc, vdevId), HwModeTransition(ind.hwModeTransInd, env.psoc),
          SaeSinglePmkCap(env.psoc, vdevId)]
         + (if env.pktCapMode then [PktCaptureRecordChannel] else [])
         + [SetDisableHiRssi(vdevId, Is5GhzFreq(ind.chanFreq)),
            RoamStateChange(vdevId, NextRsoState(ind.authStatus), ReasonConnect)]
  }

  /** cm_fw_roam_complete: the work left once the firmware has been told the
      sync is complete. The second NULL test is made on the pdev again, not
      on the psoc, so it can never fail and a NULL psoc is passed on. */
  method FwRoamComplete(vdevId: VdevId, ind: RoamSyncInd, env: CompleteEnv) returns (status: QdfStatus, events: seq<Event>)
    ensures status == CompleteStatus(env)
    ensures events == CompleteTrace(vdevId, ind, env)
  {
    status := Success;
    events := [];
    if !env.pdevPresent {
      return EFailure, events;
    }
    var psoc := env.psoc;
    if env.disabledForFreq {
      events := events + [Disconnect(psoc, vdevId, CmRoamDisconnect, ReasonOperChannelBandChange)];
      return EFailure, events;
    }
    events := events + [PolicyUpdateConnectionInfo(psoc, vdevId)];
    events := events + [HwModeTransition(ind.hwModeTransInd, psoc)];
    events := events + [SaeSinglePmkCap(psoc, vdevId)];
    if env.pktCapMode {
      events := events + [PktCaptureRecordChannel];
    }
    if Is5GhzFreq(ind.chanFreq) {
      events := events + [SetDisableHiRssi(vdevId, true)];
    } else {
      events := events + [SetDisableHiRssi(vdevId, false)];
    }
    if ind.authStatus == ROAM_AUTH_STATUS_AUTHENTICATED {
      events := events + [RoamStateChange(vdevId, RsoEnabled, ReasonConnect)];
    } else {
      events := events + [RoamStateChange(vdevId, RoamInit, ReasonConnect)];
    }
  }

  /** A roam onto a disabled frequency disconnects, for a band change, and
      fails without touching policy, hardware mode or roam state; otherwise
      HI_RSSI is disabled iff the new AP is on 5 GHz and the roam state is
      set once, last, to the state the authentication status calls for. */
  lemma CompleteOutcome(vdevId: VdevId, ind: RoamSyncInd, env: CompleteEnv)
    requires env.pdevPresent
    ensures env.disabledForFreq ==>
              CompleteStatus(env) == EFailure
              && CompleteTrace(vdevId, ind, env) == [Disconnect(env.psoc, vdevId, CmRoamDisconnect, ReasonOperChannelBandChange)]
    ensures !env.disabledForFreq ==>
              var t := CompleteTrace(vdevId, ind, env);
              && CompleteStatus(env) == Success
              && (SetDisableHiRssi(vdevId, true) in t <==> Is5GhzFreq(ind.chanFreq))
              && (forall e :: e in t && e.RoamStateChange? ==> e == t[|t| - 1])
              && t[|t| - 1] == RoamStateChange(vdevId, NextRsoState(ind.authStatus), ReasonConnect)
              && (forall e :: e in t ==> !e.Disconnect?)
  {
  }

  /** As written, a NULL psoc reaches the policy manager and the other
      services while the call reports success. */
  lemma NullPsocPassedOn(vdevId: VdevId, ind: RoamSyncInd, env: CompleteEnv)
    requires env.pdevPresent && !env.disabledForFreq && env.psoc == Null
    ensures CompleteStatus(env) == Success
    ensures PassesNullPsoc(CompleteTrace(vdevId, ind, env)[0])
  {
  }

  /** cm_fw_roam_complete with the psoc tested, as evidently intended: a
      NULL psoc fails with E_FAILURE before any call, so no service is
      ever handed a NULL psoc. */
  method FwRoamCompleteChecked(vdevId: VdevId, ind: RoamSyncInd, env: CompleteEnv) returns (status: QdfStatus, events: seq<Event>)
    ensures env.psoc == Null ==> status == EFailure && events == []
    ensures env.psoc != Null ==> status == CompleteStatus(env) && events == CompleteTrace(vdevId, ind, env)
    ensures forall e :: e in events ==> !PassesNullPsoc(e)
  {
    if env.psoc == Null {
      return EFailure, [];
    }
    status, events := FwRoamComplete(vdevId, ind, env);
  }
}

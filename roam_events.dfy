/** The calls the roam-sync code makes into services outside the connection
    manager (object manager, state machines, scan cache, blocklist, PMKSA
    cache, policy manager, regulatory, OS interface). Each call is recorded as
    one `Event`; an entry point returns the sequence of events it caused, in
    order, so that "exactly once", "only if" and "before" can be stated over it. */
module RoamEvents {
  import opened Common
  import opened RoamInd

  type CmId = nat
  type VdevId = nat

  /** CM_ID_INVALID: the command id used when no roam request is queued. */
  const CM_ID_INVALID: CmId

  /** Events of the connection-manager state machine (cm_sm_deliver_event). */
  datatype CmSmEvent = EvRoamSync | EvRoamDone
  /** Events of the per-vdev MLME state machine (wlan_vdev_mlme_sm_deliver_evt). */
  datatype VdevSmEvent = EvVdevRoam

  /** Roam-offload (RSO) states set through wlan_cm_roam_state_change. */
  datatype RoamState = RoamSynchInProg | RsoEnabled | RoamInit
  datatype StateChangeReason = ReasonRoamHandoffDone | ReasonConnect
  datatype StopReason = ReasonRoamSynchFailed
  datatype DisconnectSource = CmRoamDisconnect
  datatype DisconnectReason = ReasonOperChannelBandChange

  /** scan_entry_connection_state values written by cm_update_scan_mlme_on_roam. */
  datatype ScanConState = ScanEntryConStateNone | ScanEntryConStateAssoc

  datatype BlmConnectState = BlmApDisconnected
  /** struct reject_ap_info as filled by cm_fw_roam_sync_start_ind. */
  datatype RejectApType = DriverAvoidType
  datatype RejectReason = ReasonStaKickout
  datatype RejectSource = AddedByDriver
  datatype RejectApInfo = RejectApInfo(bssid: MacAddr, rejectApType: RejectApType,
                                       rejectReason: RejectReason, source: RejectSource)

  /** The PMKSA entry handed to wlan_crypto_set_del_pmksa. */
  datatype PmksaRecord = PmksaRecord(bssid: MacAddr, pmkid: seq<Byte>, pmk: seq<Byte>, pmkLen: nat)

  datatype Event =
    | VdevGetRef(vdevId: VdevId)
    | VdevReleaseRef(vdevId: VdevId)
    | CmSmDeliver(cmEvent: CmSmEvent)
    | VdevSmDeliver(vdevEvent: VdevSmEvent)
    | FwRoamAbortReq(vdevId: VdevId)
    | RoamStopReq(vdevId: VdevId, stopReason: StopReason)
    | AbortFwRoam(cmId: CmId)
    | BlmUpdateConnectParams(bssid: MacAddr, blmState: BlmConnectState)
    | BlmAddToRejectList(info: RejectApInfo)
    | ScanUpdateMlme(bssid: MacAddr, ssid: seq<Byte>, freq: nat, conState: ScanConState)
    | RoamStateChange(vdevId: VdevId, roamState: RoamState, reason: StateChangeReason)
    | OsifRoamSyncInd
    | AllocConnectRsp
    | FreeConnectRsp
    | InformBcnProbe(frame: Buf, freq: nat, rssi: int, cmId: CmId)
    | CsrRoamSyncRsp
    | CsrSetSsNone(vdevId: VdevId)
    | SetPskPmk(vdevId: VdevId, pmk: seq<Byte>, pmkLen: nat)
    | PmksaAdd(entry: PmksaRecord)
    | FreePmkidCache(contents: PmksaRecord)
    | WaitForKeyTimer(vdevId: VdevId, timeout: nat)
    | OsifConnectComplete
    | IfMgrConnectComplete(connectStatus: QdfStatus)
    | BlmConnectComplete
    | ConnectInfo(bssid: MacAddr, ssid: seq<Byte>, freq: nat)
    | TdlsNotifyStaConnect(vdevId: VdevId)
    | P2pStatusConnect
    | RoamStartInitOnConnect(vdevId: VdevId)
    | SendRoamSyncCompleteCmd(vdevId: VdevId)
    | OsifRoamComplete
    | RemoveCmd(cmId: CmId)
    | Disconnect(psoc: Handle, vdevId: VdevId, source: DisconnectSource, disconnectReason: DisconnectReason)
    | PolicyUpdateConnectionInfo(psoc: Handle, vdevId: VdevId)
    | HwModeTransition(transition: HwModeTransInd, psoc: Handle)
    | SaeSinglePmkCap(psoc: Handle, vdevId: VdevId)
    | PktCaptureRecordChannel
    | SetDisableHiRssi(vdevId: VdevId, disable: bool)

  /** How many times `e` occurs in trace `t`. */
  function Count(t: seq<Event>, e: Event): nat { multiset(t)[e] }

  /** Some occurrence of `a` comes strictly before some occurrence of `b`. */
  predicate Precedes(t: seq<Event>, a: Event, b: Event)
  {
    exists i, j :: 0 <= i < j < |t| && t[i] == a && t[j] == b
  }

  /** The events that acquire or release something the cycle owns, or end it. */
  predicate Lifecycle(e: Event)
  {
    e.VdevGetRef? || e.VdevReleaseRef? || e.FwRoamAbortReq? || e.RoamStopReq? || e.AbortFwRoam?
    || e.RemoveCmd? || e.AllocConnectRsp? || e.FreeConnectRsp?
  }

  /** A stretch of calls that touches none of the cycle's lifecycle. */
  predicate Quiet(t: seq<Event>) { forall e :: e in t ==> !Lifecycle(e) }

  /** An event that hands a NULL psoc to a service. */
  predicate PassesNullPsoc(e: Event)
  {
    (e.Disconnect? || e.PolicyUpdateConnectionInfo? || e.HwModeTransition? || e.SaeSinglePmkCap?) && e.psoc == Null
  }

  /** The lifecycle calls of `t`, in order. */
  function LifecycleCalls(t: seq<Event>): seq<Event>
  {
    if t == [] then []
    else (if Lifecycle(t[0]) then [t[0]] else []) + LifecycleCalls(t[1..])
  }

  lemma {:induction false} LifecycleCallsConcat(a: seq<Event>, b: seq<Event>)
    ensures LifecycleCalls(a + b) == LifecycleCalls(a) + LifecycleCalls(b)
  {
    if a != [] {
      assert (a + b)[1..] == a[1..] + b;
      LifecycleCallsConcat(a[1..], b);
    } else {
      assert a + b == b;
    }
  }

  lemma LifecycleCallsSingle(e: Event)
    ensures LifecycleCalls([e]) == if Lifecycle(e) then [e] else []
  {
    assert [e][1..] == [];
  }

  /** A quiet stretch contributes no lifecycle call. */
  lemma {:induction false} QuietHasNoLifecycleCalls(t: seq<Event>)
    requires Quiet(t)
    ensures LifecycleCalls(t) == []
  {
    if t != [] {
      assert t[0] in t;
      QuietHasNoLifecycleCalls(t[1..]);
    }
  }
}

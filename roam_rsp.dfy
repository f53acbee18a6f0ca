/** The connect response the roam-sync code assembles from an indication
    (struct cm_vdev_join_rsp with its embedded wlan_cm_connect_resp and the
    separately allocated wlan_roam_sync_info), filled field by field in place:
    cm_fill_roam_info, cm_copy_tspec_ie, cm_populate_connect_ies and
    cm_fill_fils_ie. */
module RoamRsp {
  import opened Common
  import opened RoamInd
  import opened RoamEvents

  /** Which heap allocations succeed, one flag per qdf_mem_malloc site. */
  datatype Allocs = Allocs(
    connectRsp: bool, roamingInfo: bool, ric: bool, tspec: bool,
    bcnProbe: bool, assocRsp: bool, assocReq: bool, fils: bool)

  /** struct fils_connect_rsp_params; the HLP payload itself is not modelled. */
  datatype FilsIe = FilsIe(filsSeqNum: nat)

  /** What copying an optional blob leaves in its (len, ptr) pair: nothing
      when absent; the length, and the bytes only if the allocation succeeded. */
  function Copied(blob: Option<seq<Byte>>, allocOk: bool): (b: Buf)
    ensures blob.None? ==> b == EMPTY_BUF
    ensures blob.Some? ==> b.len == |blob.value| && (b.ptr.Some? <==> allocOk)
    ensures blob.Some? && allocOk ==> b.ptr == blob
    ensures allocOk ==> b == BufOf(blob)
  {
    match blob
    case None => EMPTY_BUF
    case Some(bytes) => Buf(|bytes|, if allocOk then Some(bytes) else None)
  }

  /** struct wlan_roam_sync_info: fixed-size key arrays and their lengths. */
  class RoamSyncInfo {
    var authStatus: nat
    var kckLen: nat
    const kck: array<Byte>
    var kekLen: nat
    const kek: array<Byte>
    const replayCtr: array<Byte>
    var roamReason: bv32
    var subnetChangeStatus: bv8
    var pmkLen: nat
    const pmk: array<Byte>
    const pmkid: array<Byte>
    var updateErpNextSeqNum: bool
    var nextErpSeqNum: nat

    ghost function Repr(): set<object> reads this { {this, kck, kek, replayCtr, pmk, pmkid} }

    /** The arrays have their declared widths and do not overlap. */
    ghost predicate Valid()
      reads this
    {
      && kck.Length == MAX_KCK_LEN && kek.Length == MAX_KEK_LEN && replayCtr.Length == REPLAY_CTR_LEN
      && pmk.Length == MAX_PMK_LEN && pmkid.Length == PMKID_LEN
      && kck != kek && kck != replayCtr && kck != pmk && kck != pmkid
      && kek != replayCtr && kek != pmk && kek != pmkid
      && replayCtr != pmk && replayCtr != pmkid && pmk != pmkid
    }

    /** Nothing has been written since qdf_mem_malloc zeroed the struct. */
    predicate KeysZero()
      reads this, kck, kek, replayCtr, pmk, pmkid
    {
      && authStatus == 0 && kckLen == 0 && kekLen == 0 && pmkLen == 0 && roamReason == 0
      && subnetChangeStatus == 0 && !updateErpNextSeqNum && nextErpSeqNum == 0
      && (forall i :: 0 <= i < kck.Length ==> kck[i] == 0)
      && (forall i :: 0 <= i < kek.Length ==> kek[i] == 0)
      && (forall i :: 0 <= i < replayCtr.Length ==> replayCtr[i] == 0)
      && (forall i :: 0 <= i < pmk.Length ==> pmk[i] == 0)
      && (forall i :: 0 <= i < pmkid.Length ==> pmkid[i] == 0)
    }

    /** qdf_mem_malloc(sizeof(*roaming_info)): zero-filled. */
    constructor ()
      ensures Valid() && KeysZero()
      ensures fresh(kck) && fresh(kek) && fresh(replayCtr) && fresh(pmk) && fresh(pmkid)
    {
      authStatus, kckLen, kekLen, pmkLen := 0, 0, 0, 0;
      roamReason, subnetChangeStatus := 0, 0;
      updateErpNextSeqNum, nextErpSeqNum := false, 0;
      kck := new Byte[MAX_KCK_LEN](_ => 0);
      kek := new Byte[MAX_KEK_LEN](_ => 0);
      replayCtr := new Byte[REPLAY_CTR_LEN](_ => 0);
      pmk := new Byte[MAX_PMK_LEN](_ => 0);
      pmkid := new Byte[PMKID_LEN](_ => 0);
    }
  }

  /** The key bytes of the indication, at its declared lengths, are what the
      roaming info's arrays hold. */
  predicate KeyBytesCopied(info: RoamSyncInfo, ind: RoamSyncInd)
    reads info, info.kck, info.kek, info.replayCtr, info.pmk, info.pmkid
  {
    && ind.kckLen <= info.kck.Length && ind.kckLen <= |ind.kck|
    && info.kck[..ind.kckLen] == ind.kck[..ind.kckLen]
    && ind.kekLen <= info.kek.Length && ind.kekLen <= |ind.kek|
    && info.kek[..ind.kekLen] == ind.kek[..ind.kekLen]
    && info.replayCtr[..] == ind.replayCtr
    && ind.pmkLen <= info.pmk.Length && ind.pmkLen <= |ind.pmk|
    && info.pmk[..ind.pmkLen] == ind.pmk[..ind.pmkLen]
    && info.pmkid[..] == ind.pmkid
  }

  /** The key material of the indication is what the roaming info holds:
      the bytes, their lengths, the masked roam reason and what it implies
      for the subnet, and the ERP sequence number. */
  predicate KeysCopied(info: RoamSyncInfo, ind: RoamSyncInd)
    reads info, info.kck, info.kek, info.replayCtr, info.pmk, info.pmkid
  {
    && KeyBytesCopied(info, ind)
    && info.authStatus == ind.authStatus
    && info.kckLen == ind.kckLen && info.kekLen == ind.kekLen && info.pmkLen == ind.pmkLen
    && info.roamReason == ind.roamReason & ROAM_REASON_MASK
    && info.subnetChangeStatus == CmGetSubnetStatus(info.roamReason)
    && info.updateErpNextSeqNum == ind.updateErpNextSeqNum
    && info.nextErpSeqNum == ind.nextErpSeqNum
  }

  /** struct cm_vdev_join_rsp (with connect_rsp and its connect_ies). */
  class JoinRsp {
    var vdevId: VdevId
    var bssid: MacAddr
    var ssid: seq<Byte>
    var isReassoc: bool
    var connectStatus: QdfStatus
    var cmId: CmId
    var freq: nat
    var nss: nat
    var isFt: bool
    var roamingInfo: RoamSyncInfo?
    var ricRespIe: Buf
    var tspecIe: Buf
    var bcnProbeRsp: Buf
    var assocRsp: Buf
    var assocReq: Buf
    var filsIe: Option<FilsIe>

    /** As qdf_mem_malloc returns it: every field zero (QDF_STATUS_SUCCESS is 0). */
    predicate Zeroed()
      reads this
    {
      && vdevId == 0 && bssid == ZERO_MAC && ssid == [] && !isReassoc && connectStatus == Success
      && cmId == 0 && freq == 0 && nss == 0 && !isFt && roamingInfo == null
      && ricRespIe == EMPTY_BUF && tspecIe == EMPTY_BUF && bcnProbeRsp == EMPTY_BUF
      && assocRsp == EMPTY_BUF && assocReq == EMPTY_BUF && filsIe.None?
    }

    constructor ()
      ensures Zeroed()
    {
      vdevId, bssid, ssid, isReassoc, connectStatus := 0, ZERO_MAC, [], false, Success;
      cmId, freq, nss, isFt, roamingInfo := 0, 0, 0, false, null;
      ricRespIe, tspecIe, bcnProbeRsp, assocRsp, assocReq := EMPTY_BUF, EMPTY_BUF, EMPTY_BUF, EMPTY_BUF, EMPTY_BUF;
      filsIe := None;
    }
  }

  /** qdf_mem_copy of `n` bytes into a fixed-size array. */
  method MemCopy(dst: array<Byte>, src: seq<Byte>, n: nat)
    requires n <= dst.Length && n <= |src|
    modifies dst
    ensures dst[..n] == src[..n]
    ensures forall k :: n <= k < dst.Length ==> dst[k] == old(dst[k])
  {
    var i := 0;
    while i < n
      invariant 0 <= i <= n
      invariant forall k :: 0 <= k < i ==> dst[k] == src[k]
      invariant forall k :: i <= k < dst.Length ==> dst[k] == old(dst[k])
    {
      dst[i] := src[i];
      i := i + 1;
    }
  }

  /** The FILS parameters cm_fill_fils_ie leaves in the response. */
  function FilsOf(ind: RoamSyncInd, allocOk: bool): Option<FilsIe>
  {
    if ind.hlpDataLen == 0 || !allocOk then None else Some(FilsIe(ind.nextErpSeqNum))
  }

  /** cm_fill_fils_ie: allocates the FILS parameters iff there is HLP data. */
  method FillFilsIe(rsp: JoinRsp, ind: RoamSyncInd, allocOk: bool) returns (status: QdfStatus)
    requires rsp.filsIe.None?
    modifies rsp`filsIe
    ensures status == (if ind.hlpDataLen > 0 && !allocOk then ENoMem else Success)
    ensures rsp.filsIe == FilsOf(ind, allocOk)
  {
    if ind.hlpDataLen == 0 {
      return Success;
    }
    if !allocOk {
      return ENoMem;
    }
    rsp.filsIe := Some(FilsIe(ind.nextErpSeqNum));
    status := Success;
  }

  /** One (re)association frame in cm_populate_connect_ies: when the frame
      is longer than its MAC header, the length of its IEs is recorded and
      then, if the allocation succeeds, the IEs are copied. */
  method CopyFrameIes(raw: seq<Byte>, off: nat, frameLen: nat, allocOk: bool) returns (b: Buf, status: QdfStatus)
    requires ReassocIesPresent(frameLen) ==> InBounds(raw, off, frameLen)
    ensures b == Copied(ReassocIes(raw, off, frameLen), allocOk)
    ensures status == (if ReassocIesPresent(frameLen) && !allocOk then ENoMem else Success)
  {
    b, status := EMPTY_BUF, Success;
    if frameLen > WLAN_FRAME_HDR_LEN {
      var len := frameLen - WLAN_FRAME_HDR_LEN;
      var start := off + WLAN_FRAME_HDR_LEN;
      b := Buf(len, None);
      if !allocOk {
        return b, ENoMem;
      }
      b := Buf(len, Some(raw[start .. start + len]));
    }
  }

  /** The allocation for the beacon/probe response copy fails. */
  predicate BcnFails(ind: RoamSyncInd, a: Allocs) { BcnProbePresent(ind) && !a.bcnProbe }
  /** The allocation for the reassociation-response IEs fails. */
  predicate AssocRspFails(ind: RoamSyncInd, a: Allocs) { ReassocIesPresent(ind.reassocRespLength) && !a.assocRsp }
  /** The allocation for the reassociation-request IEs fails. */
  predicate AssocReqFails(ind: RoamSyncInd, a: Allocs) { ReassocIesPresent(ind.reassocReqLength) && !a.assocReq }

  /** The status cm_populate_connect_ies returns: the first frame whose
      buffer cannot be allocated fails it; the FILS status is not looked at. */
  function PopulateOutcome(ind: RoamSyncInd, a: Allocs): QdfStatus
  {
    if BcnFails(ind, a) || AssocRspFails(ind, a) || AssocReqFails(ind, a) then ENoMem else Success
  }

  /** The three frame copies of cm_populate_connect_ies, each stopping the
      population when its allocation fails. */
  method CopyFrames(ind: RoamSyncInd, rsp: JoinRsp, a: Allocs) returns (status: QdfStatus)
    requires IeOffsetsInBounds(ind)
    requires rsp.bcnProbeRsp == EMPTY_BUF && rsp.assocRsp == EMPTY_BUF && rsp.assocReq == EMPTY_BUF
    modifies rsp`bcnProbeRsp, rsp`assocRsp, rsp`assocReq
    ensures status == PopulateOutcome(ind, a)
    ensures rsp.bcnProbeRsp == Copied(BcnProbeIes(ind), a.bcnProbe)
    ensures BcnFails(ind, a) ==> rsp.assocRsp == EMPTY_BUF && rsp.assocReq == EMPTY_BUF
    ensures !BcnFails(ind, a) ==> rsp.assocRsp == Copied(ReassocRspIes(ind), a.assocRsp)
    ensures !BcnFails(ind, a) && AssocRspFails(ind, a) ==> rsp.assocReq == EMPTY_BUF
    ensures !BcnFails(ind, a) && !AssocRspFails(ind, a) ==> rsp.assocReq == Copied(ReassocReqIes(ind), a.assocReq)
  {
    if ind.beaconProbeRespLength > 0 {
      rsp.bcnProbeRsp := Buf(ind.beaconProbeRespLength, None);
      if !a.bcnProbe {
        return ENoMem;
      }
      var off := ind.beaconProbeRespOffset;
      rsp.bcnProbeRsp := Buf(ind.beaconProbeRespLength, Some(ind.raw[off .. off + ind.beaconProbeRespLength]));
    }
    var rspIes, rspStatus := CopyFrameIes(ind.raw, ind.reassocRespOffset, ind.reassocRespLength, a.assocRsp);
    rsp.assocRsp := rspIes;
    if rspStatus.IsError() {
      return rspStatus;
    }
    var reqIes, reqStatus := CopyFrameIes(ind.raw, ind.reassocReqOffset, ind.reassocReqLength, a.assocReq);
    rsp.assocReq := reqIes;
    status := reqStatus;
  }

  /** cm_populate_connect_ies: copies the beacon/probe response and the IEs
      of the two reassociation frames (header stripped) into owned buffers,
      then records FT and fills the FILS parameters. */
  method PopulateConnectIes(ind: RoamSyncInd, rsp: JoinRsp, a: Allocs) returns (status: QdfStatus)
    requires IeOffsetsInBounds(ind)
    requires rsp.bcnProbeRsp == EMPTY_BUF && rsp.assocRsp == EMPTY_BUF && rsp.assocReq == EMPTY_BUF
    requires rsp.filsIe.None?
    modifies rsp`bcnProbeRsp, rsp`assocRsp, rsp`assocReq, rsp`isFt, rsp`filsIe
    ensures status == PopulateOutcome(ind, a)
    ensures rsp.bcnProbeRsp == Copied(BcnProbeIes(ind), a.bcnProbe)
    ensures BcnFails(ind, a) ==> rsp.assocRsp == EMPTY_BUF && rsp.assocReq == EMPTY_BUF
    ensures !BcnFails(ind, a) ==> rsp.assocRsp == Copied(ReassocRspIes(ind), a.assocRsp)
    ensures !BcnFails(ind, a) && AssocRspFails(ind, a) ==> rsp.assocReq == EMPTY_BUF
    ensures !BcnFails(ind, a) && !AssocRspFails(ind, a) ==> rsp.assocReq == Copied(ReassocReqIes(ind), a.assocReq)
    ensures status.Success? ==> rsp.isFt == ind.isFtImRoam && rsp.filsIe == FilsOf(ind, a.fils)
    ensures status.IsError() ==> rsp.isFt == old(rsp.isFt) && rsp.filsIe.None?
  {
    status := CopyFrames(ind, rsp, a);
    if status.IsError() {
      return;
    }
    rsp.isFt := ind.isFtImRoam;
    var filsStatus := FillFilsIe(rsp, ind, a.fils);  // status not looked at
  }

  /** cm_copy_tspec_ie: the TSPEC follows the RIC in ric_tspec_data. */
  method CopyTspecIe(rsp: JoinRsp, ind: RoamSyncInd, allocOk: bool) returns (status: QdfStatus)
    requires RicTspecInBounds(ind)
    requires rsp.tspecIe == EMPTY_BUF
    modifies rsp`tspecIe
    ensures status == (if ind.tspecLen > 0 && !allocOk then ENoMem else Success)
    ensures rsp.tspecIe == Copied(TspecIe(ind), allocOk)
  {
    if ind.tspecLen > 0 {
      rsp.tspecIe := Buf(ind.tspecLen, None);
      if !allocOk {
        return ENoMem;
      }
      rsp.tspecIe := Buf(ind.tspecLen, Some(ind.ricTspecData[ind.ricDataLen .. ind.ricDataLen + ind.tspecLen]));
    }
    status := Success;
  }

  /** The key half of cm_fill_roam_info: copies authentication status, keys,
      replay counter, masked roam reason, PMK, PMKID and ERP sequence number. */
  method CopyKeys(info: RoamSyncInfo, ind: RoamSyncInd)
    requires info.Valid()
    requires Shaped(ind) && KeyLengthsFit(ind)
    modifies info, info.kck, info.kek, info.replayCtr, info.pmk, info.pmkid
    ensures KeysCopied(info, ind)
  {
    info.authStatus := ind.authStatus;
    info.kckLen := ind.kckLen;
    info.kekLen := ind.kekLen;
    CopyKeyBytes(info, ind);
    info.roamReason := ind.roamReason & ROAM_REASON_MASK;
    info.subnetChangeStatus := CmGetSubnetStatus(info.roamReason);
    info.pmkLen := ind.pmkLen;
    info.updateErpNextSeqNum := ind.updateErpNextSeqNum;
    info.nextErpSeqNum := ind.nextErpSeqNum;
  }

  /** The qdf_mem_copy calls of cm_fill_roam_info; KCK, KEK and PMK are
      copied only when their length is non-zero. */
  method CopyKeyBytes(info: RoamSyncInfo, ind: RoamSyncInd)
    requires info.Valid()
    requires Shaped(ind) && KeyLengthsFit(ind)
    modifies info.kck, info.kek, info.replayCtr, info.pmk, info.pmkid
    ensures KeyBytesCopied(info, ind)
  {
    if ind.kckLen > 0 {
      MemCopy(info.kck, ind.kck, ind.kckLen);
    }
    if ind.kekLen > 0 {
      MemCopy(info.kek, ind.kek, ind.kekLen);
    }
    MemCopy(info.replayCtr, ind.replayCtr, REPLAY_CTR_LEN);
    if ind.pmkLen > 0 {
      MemCopy(info.pmk, ind.pmk, ind.pmkLen);
    }
    MemCopy(info.pmkid, ind.pmkid, PMKID_LEN);
  }

  /** The connect_rsp header written at the top of cm_fill_roam_info. */
  method FillHeader(rsp: JoinRsp, ind: RoamSyncInd, cmId: CmId, info: RoamSyncInfo)
    modifies rsp`roamingInfo, rsp`vdevId, rsp`bssid, rsp`isReassoc, rsp`connectStatus, rsp`cmId
    modifies rsp`freq, rsp`nss
    ensures HeaderFilled(rsp, ind, cmId) && rsp.roamingInfo == info
  {
    rsp.roamingInfo := info;
    rsp.vdevId := ind.roamedVdevId;
    rsp.bssid := ind.bssid;
    rsp.isReassoc := true;
    rsp.connectStatus := Success;
    rsp.cmId := cmId;
    rsp.freq := ind.chanFreq;
    rsp.nss := ind.nss;
  }

  /** The RIC copy in cm_fill_roam_info: the length is set before the
      allocation, so a failed allocation leaves a length with no bytes. */
  method CopyRicIe(rsp: JoinRsp, ind: RoamSyncInd, allocOk: bool) returns (status: QdfStatus)
    requires RicTspecInBounds(ind)
    requires rsp.ricRespIe == EMPTY_BUF
    modifies rsp`ricRespIe
    ensures status == (if ind.ricDataLen > 0 && !allocOk then ENoMem else Success)
    ensures rsp.ricRespIe == Copied(RicIe(ind), allocOk)
  {
    if ind.ricDataLen > 0 {
      rsp.ricRespIe := Buf(ind.ricDataLen, None);
      if !allocOk {
        return ENoMem;
      }
      rsp.ricRespIe := Buf(ind.ricDataLen, Some(ind.ricTspecData[..ind.ricDataLen]));
    }
    status := Success;
  }

  /** The status cm_fill_roam_info returns. The TSPEC and FILS allocations
      do not enter it: their statuses are dropped. */
  function FillOutcome(ind: RoamSyncInd, a: Allocs): QdfStatus
  {
    if !a.roamingInfo then ENoMem
    else if RicFails(ind, a) then ENoMem
    else PopulateOutcome(ind, a)
  }

  /** The connect_rsp header fields every roam response carries. */
  predicate HeaderFilled(rsp: JoinRsp, ind: RoamSyncInd, cmId: CmId)
    reads rsp`isReassoc, rsp`connectStatus, rsp`cmId, rsp`vdevId, rsp`freq, rsp`bssid, rsp`nss
  {
    && rsp.isReassoc && rsp.connectStatus == Success && rsp.cmId == cmId
    && rsp.vdevId == ind.roamedVdevId && rsp.freq == ind.chanFreq && rsp.bssid == ind.bssid
    && rsp.nss == ind.nss
  }

  /** cm_fill_roam_info: fills the response in place from the indication.
      The requires are what the code relies on and never checks: the frame
      offsets, the RIC/TSPEC lengths and the key lengths are all in bounds. */
  method FillRoamInfo(ind: RoamSyncInd, rsp: JoinRsp, cmId: CmId, a: Allocs) returns (status: QdfStatus)
    requires Shaped(ind)
    requires IeOffsetsInBounds(ind)
    requires RicTspecInBounds(ind)
    requires KeyLengthsFit(ind)
    requires rsp.Zeroed()
    modifies rsp
    ensures status == FillOutcome(ind, a)
    ensures (rsp.roamingInfo != null) == a.roamingInfo
    ensures !a.roamingInfo ==> unchanged(rsp)
    ensures rsp.roamingInfo != null ==> fresh(rsp.roamingInfo.Repr()) && rsp.roamingInfo.Valid()
    ensures a.roamingInfo ==> HeaderFilled(rsp, ind, cmId) && rsp.ssid == []
    ensures a.roamingInfo ==> rsp.ricRespIe == Copied(RicIe(ind), a.ric) && FramesLeft(rsp, ind, a)
    ensures status.Success? ==>
              && rsp.isFt == ind.isFtImRoam && rsp.filsIe == FilsOf(ind, a.fils)
              && KeysCopied(rsp.roamingInfo, ind)
    ensures status.IsError() ==> !rsp.isFt && rsp.filsIe.None?
    ensures a.roamingInfo && status.IsError() ==> rsp.roamingInfo.KeysZero()
  {
    if !a.roamingInfo {
      return ENoMem;
    }
    var info := new RoamSyncInfo();
    status := FillAllocated(ind, rsp, cmId, a, info);
  }

  /** cm_fill_roam_info once roaming_info has been allocated. */
  method FillAllocated(ind: RoamSyncInd, rsp: JoinRsp, cmId: CmId, a: Allocs, info: RoamSyncInfo)
    returns (status: QdfStatus)
    requires Shaped(ind)
    requires IeOffsetsInBounds(ind)
    requires RicTspecInBounds(ind)
    requires KeyLengthsFit(ind)
    requires rsp.Zeroed()
    requires info.Valid() && info.KeysZero()
    modifies rsp`roamingInfo, rsp`vdevId, rsp`bssid, rsp`isReassoc, rsp`connectStatus, rsp`cmId
    modifies rsp`freq, rsp`nss
    modifies rsp`ricRespIe, rsp`tspecIe, rsp`bcnProbeRsp, rsp`assocRsp, rsp`assocReq, rsp`isFt, rsp`filsIe
    modifies info, info.kck, info.kek, info.replayCtr, info.pmk, info.pmkid
    ensures status == if RicFails(ind, a) then ENoMem else PopulateOutcome(ind, a)
    ensures rsp.roamingInfo == info && info.Valid()
    ensures HeaderFilled(rsp, ind, cmId)
    ensures rsp.ricRespIe == Copied(RicIe(ind), a.ric)
    ensures FramesLeft(rsp, ind, a)
    ensures status.Success? ==>
              && rsp.isFt == ind.isFtImRoam && rsp.filsIe == FilsOf(ind, a.fils)
              && KeysCopied(info, ind)
    ensures status.IsError() ==> !rsp.isFt && rsp.filsIe.None? && info.KeysZero()
  {
    FillHeader(rsp, ind, cmId, info);
    status := CopyIes(ind, rsp, a);
    if status.IsError() {
      return;
    }
    CopyKeys(info, ind);
  }

  /** The allocation for the RIC copy fails. */
  predicate RicFails(ind: RoamSyncInd, a: Allocs) { ind.ricDataLen > 0 && !a.ric }

  /** The TSPEC and frame buffers the middle of cm_fill_roam_info leaves:
      each copy after a failed allocation is never made, so its buffer stays
      empty (the caller frees only what was allocated). */
  predicate FramesLeft(rsp: JoinRsp, ind: RoamSyncInd, a: Allocs)
    requires IeOffsetsInBounds(ind) && RicTspecInBounds(ind)
    reads rsp`tspecIe, rsp`bcnProbeRsp, rsp`assocRsp, rsp`assocReq
  {
    && rsp.tspecIe == (if RicFails(ind, a) then EMPTY_BUF else Copied(TspecIe(ind), a.tspec))
    && rsp.bcnProbeRsp == (if RicFails(ind, a) then EMPTY_BUF else Copied(BcnProbeIes(ind), a.bcnProbe))
    && rsp.assocRsp == (if RicFails(ind, a) || BcnFails(ind, a) then EMPTY_BUF
                        else Copied(ReassocRspIes(ind), a.assocRsp))
    && rsp.assocReq == (if RicFails(ind, a) || BcnFails(ind, a) || AssocRspFails(ind, a) then EMPTY_BUF
                        else Copied(ReassocReqIes(ind), a.assocReq))
  }

  /** The middle of cm_fill_roam_info: the RIC copy, the TSPEC copy, whose
      status is dropped, then cm_populate_connect_ies. */
  method CopyIes(ind: RoamSyncInd, rsp: JoinRsp, a: Allocs) returns (status: QdfStatus)
    requires IeOffsetsInBounds(ind)
    requires RicTspecInBounds(ind)
    requires rsp.ricRespIe == EMPTY_BUF && rsp.tspecIe == EMPTY_BUF && rsp.bcnProbeRsp == EMPTY_BUF
    requires rsp.assocRsp == EMPTY_BUF && rsp.assocReq == EMPTY_BUF && rsp.filsIe.None?
    modifies rsp`ricRespIe, rsp`tspecIe, rsp`bcnProbeRsp, rsp`assocRsp, rsp`assocReq, rsp`isFt, rsp`filsIe
    ensures status == if RicFails(ind, a) then ENoMem else PopulateOutcome(ind, a)
    ensures rsp.ricRespIe == Copied(RicIe(ind), a.ric)
    ensures FramesLeft(rsp, ind, a)
    ensures status.Success? ==> rsp.isFt == ind.isFtImRoam && rsp.filsIe == FilsOf(ind, a.fils)
    ensures status.IsError() ==> rsp.isFt == old(rsp.isFt) && rsp.filsIe.None?
  {
    status := CopyRicIe(rsp, ind, a.ric);
    if status.IsError() {
      return;
    }
    var tspecStatus := CopyTspecIe(rsp, ind, a.tspec);  // status not looked at
    status := PopulateConnectIes(ind, rsp, a);
  }

  /** Every optional element the indication announces is really in the
      response: the TSPEC owns its bytes and the FILS parameters exist. */
  predicate ResponseComplete(rsp: JoinRsp, ind: RoamSyncInd)
    reads rsp
  {
    rsp.tspecIe.Owned() && (ind.hlpDataLen > 0 ==> rsp.filsIe.Some?)
  }

  /** The TSPEC and FILS allocations, which cm_fill_roam_info does not look
      at, succeed wherever they are needed. */
  predicate AllocsComplete(ind: RoamSyncInd, a: Allocs)
  {
    (ind.tspecLen > 0 ==> a.tspec) && (ind.hlpDataLen > 0 ==> a.fils)
  }

  /** The status of a fill that also fails on the TSPEC and FILS allocations. */
  function FillCheckedOutcome(ind: RoamSyncInd, a: Allocs): QdfStatus
  {
    if FillOutcome(ind, a).Success? && AllocsComplete(ind, a) then Success else ENoMem
  }

  /** The evidently intended cm_fill_roam_info: a failed TSPEC or FILS
      allocation fails the fill like every other allocation does, so a
      successful fill never hands on a response with a missing element. */
  method FillRoamInfoChecked(ind: RoamSyncInd, rsp: JoinRsp, cmId: CmId, a: Allocs) returns (status: QdfStatus)
    requires Shaped(ind)
    requires IeOffsetsInBounds(ind)
    requires RicTspecInBounds(ind)
    requires KeyLengthsFit(ind)
    requires rsp.Zeroed()
    modifies rsp
    ensures (rsp.roamingInfo != null) == a.roamingInfo
    ensures rsp.roamingInfo != null ==> fresh(rsp.roamingInfo.Repr()) && rsp.roamingInfo.Valid()
    ensures status == FillCheckedOutcome(ind, a)
    ensures status.Success? ==> FillOutcome(ind, a).Success? && AllocsComplete(ind, a)
    ensures status.Success? ==>
              && HeaderFilled(rsp, ind, cmId) && ResponseComplete(rsp, ind)
              && rsp.ricRespIe == BufOf(RicIe(ind)) && rsp.tspecIe == BufOf(TspecIe(ind))
              && rsp.bcnProbeRsp == BufOf(BcnProbeIes(ind))
              && rsp.assocRsp == BufOf(ReassocRspIes(ind)) && rsp.assocReq == BufOf(ReassocReqIes(ind))
              && KeysCopied(rsp.roamingInfo, ind)
  {
    status := FillRoamInfo(ind, rsp, cmId, a);
    if status.Success? && !ResponseComplete(rsp, ind) {
      status := ENoMem;
    }
  }

  /** The dropped statuses in FillOutcome: the result of a fill never depends
      on whether the TSPEC or FILS allocation succeeded. */
  lemma TspecAndFilsFailuresIgnored(ind: RoamSyncInd, a: Allocs)
    ensures FillOutcome(ind, a) == FillOutcome(ind, a.(tspec := true, fils := true))
  {
  }
}

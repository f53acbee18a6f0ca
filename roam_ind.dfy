/** The firmware roam-sync indication (struct roam_offload_synch_ind) as the
    connection manager reads it: fixed fields, key material, and the
    variable-length frames that live at offsets inside the event buffer.
    Defines which byte ranges the decoder reads, and the bounds check the
    source leaves out. */
module RoamInd {
  import opened Common

  // Constants whose definitions are in headers that are not part of this model.
  // They are left uninterpreted: every proof holds for any value they may have.

  /** sizeof(struct wlan_frame_hdr): the IEEE 802.11 management-frame MAC header
      (IEEE Std 802.11-2016, section 9.3.3.2) that precedes the IEs of a
      (re)association frame. */
  const WLAN_FRAME_HDR_LEN: nat
  const REPLAY_CTR_LEN: nat
  const PMKID_LEN: nat
  /** Capacities of the kck, kek and pmk arrays of struct wlan_roam_sync_info
      (the indication's own arrays have the same widths). */
  const MAX_KCK_LEN: nat
  const MAX_KEK_LEN: nat
  const MAX_PMK_LEN: nat
  const ROAM_REASON_MASK: bv32
  const ROAM_AUTH_STATUS_AUTHENTICATED: nat
  /** IS_ROAM_REASON_STA_KICKOUT(reason) */
  const IsRoamReasonStaKickout: bv32 -> bool
  /** CM_GET_SUBNET_STATUS(masked reason) */
  const CmGetSubnetStatus: bv32 -> bv8
  /** WLAN_REG_IS_5GHZ_CH_FREQ(freq) */
  const Is5GhzFreq: nat -> bool

  /** hw_mode_trans_ind: forwarded untouched to the policy manager. */
  datatype HwModeTransInd = HwModeTransInd(
    oldHwModeIndex: nat, newHwModeIndex: nat, numVdevMacEntries: nat, vdevMacMap: seq<(nat, nat)>)

  /** The indication. `raw` is the event buffer seen from the start of the
      indication, so `|raw|` is event_data_len and the frame offsets index it. */
  datatype RoamSyncInd = RoamSyncInd(
    raw: seq<Byte>,
    roamedVdevId: nat,
    bssid: MacAddr,
    chanFreq: nat,
    nss: nat,
    rssi: int,
    roamReason: bv32,
    authStatus: nat,
    isFtImRoam: bool,
    beaconProbeRespOffset: nat,
    beaconProbeRespLength: nat,
    reassocRespOffset: nat,
    reassocRespLength: nat,
    reassocReqOffset: nat,
    reassocReqLength: nat,
    ricTspecData: seq<Byte>,
    ricDataLen: nat,
    tspecLen: nat,
    kckLen: nat,
    kck: seq<Byte>,
    kekLen: nat,
    kek: seq<Byte>,
    replayCtr: seq<Byte>,
    pmkLen: nat,
    pmk: seq<Byte>,
    pmkid: seq<Byte>,
    hlpDataLen: nat,
    updateErpNextSeqNum: bool,
    nextErpSeqNum: nat,
    hwModeTransInd: HwModeTransInd)

  /** The fixed-width arrays of the C struct have their declared widths. */
  predicate Shaped(ind: RoamSyncInd)
  {
    && |ind.kck| == MAX_KCK_LEN && |ind.kek| == MAX_KEK_LEN && |ind.pmk| == MAX_PMK_LEN
    && |ind.replayCtr| == REPLAY_CTR_LEN && |ind.pmkid| == PMKID_LEN
  }

  // ---------------------------------------------------------------------------
  // The decisions of cm_populate_connect_ies / cm_fill_roam_info

  /** The beacon/probe response is copied iff its length is non-zero. */
  predicate BcnProbePresent(ind: RoamSyncInd) { ind.beaconProbeRespLength > 0 }

  /** A (re)association frame carries IEs iff it is longer than its MAC header. */
  predicate ReassocIesPresent(frameLen: nat) { frameLen > WLAN_FRAME_HDR_LEN }

  // ---------------------------------------------------------------------------
  // Bounds the source relies on without checking them

  predicate InBounds(raw: seq<Byte>, off: nat, len: nat) { off + len <= |raw| }

  /** Every frame the decoder copies lies inside the event buffer. */
  predicate IeOffsetsInBounds(ind: RoamSyncInd)
  {
    && (BcnProbePresent(ind) ==> InBounds(ind.raw, ind.beaconProbeRespOffset, ind.beaconProbeRespLength))
    && (ReassocIesPresent(ind.reassocRespLength) ==> InBounds(ind.raw, ind.reassocRespOffset, ind.reassocRespLength))
    && (ReassocIesPresent(ind.reassocReqLength) ==> InBounds(ind.raw, ind.reassocReqOffset, ind.reassocReqLength))
  }

  /** RIC and TSPEC are read back to back from ric_tspec_data. */
  predicate RicTspecInBounds(ind: RoamSyncInd)
  {
    && (ind.ricDataLen > 0 ==> ind.ricDataLen <= |ind.ricTspecData|)
    && (ind.tspecLen > 0 ==> ind.ricDataLen + ind.tspecLen <= |ind.ricTspecData|)
  }

  /** The declared key lengths fit the fixed arrays they are copied into. */
  predicate KeyLengthsFit(ind: RoamSyncInd)
  {
    ind.kckLen <= MAX_KCK_LEN && ind.kekLen <= MAX_KEK_LEN && ind.pmkLen <= MAX_PMK_LEN
  }

  predicate WellFormed(ind: RoamSyncInd)
  {
    Shaped(ind) && IeOffsetsInBounds(ind) && RicTspecInBounds(ind) && KeyLengthsFit(ind)
  }

  // ---------------------------------------------------------------------------
  // What the decoder extracts (reference definitions of the copies)

  function BcnProbeIes(ind: RoamSyncInd): (r: Option<seq<Byte>>)
    requires IeOffsetsInBounds(ind)
  {
    if BcnProbePresent(ind)
    then Some(ind.raw[ind.beaconProbeRespOffset .. ind.beaconProbeRespOffset + ind.beaconProbeRespLength])
    else None
  }

  /** The IEs of a (re)association frame at `off` of length `frameLen`: the
      frame minus its MAC header. */
  function ReassocIes(raw: seq<Byte>, off: nat, frameLen: nat): (r: Option<seq<Byte>>)
    requires ReassocIesPresent(frameLen) ==> InBounds(raw, off, frameLen)
    ensures r.Some? <==> ReassocIesPresent(frameLen)
    ensures r.Some? ==> |r.value| == frameLen - WLAN_FRAME_HDR_LEN
  {
    if ReassocIesPresent(frameLen)
    then Some(raw[off + WLAN_FRAME_HDR_LEN .. off + frameLen])
    else None
  }

  function ReassocRspIes(ind: RoamSyncInd): Option<seq<Byte>>
    requires IeOffsetsInBounds(ind)
  {
    ReassocIes(ind.raw, ind.reassocRespOffset, ind.reassocRespLength)
  }

  function ReassocReqIes(ind: RoamSyncInd): Option<seq<Byte>>
    requires IeOffsetsInBounds(ind)
  {
    ReassocIes(ind.raw, ind.reassocReqOffset, ind.reassocReqLength)
  }

  /** RIC: the first ric_data_len bytes of ric_tspec_data. */
  function RicIe(ind: RoamSyncInd): Option<seq<Byte>>
    requires RicTspecInBounds(ind)
  {
    if ind.ricDataLen > 0 then Some(ind.ricTspecData[..ind.ricDataLen]) else None
  }

  /** TSPEC: the tspec_len bytes that follow the RIC. */
  function TspecIe(ind: RoamSyncInd): Option<seq<Byte>>
    requires RicTspecInBounds(ind)
  {
    if ind.tspecLen > 0 then Some(ind.ricTspecData[ind.ricDataLen .. ind.ricDataLen + ind.tspecLen]) else None
  }

  function OrEmpty(b: Option<seq<Byte>>): seq<Byte> { if b.Some? then b.value else [] }

  /** RIC followed by TSPEC is exactly the used prefix of ric_tspec_data: the
      split loses and duplicates nothing. */
  lemma RicTspecSplit(ind: RoamSyncInd)
    requires RicTspecInBounds(ind)
    requires ind.ricDataLen + ind.tspecLen <= |ind.ricTspecData|
    ensures OrEmpty(RicIe(ind)) + OrEmpty(TspecIe(ind)) == ind.ricTspecData[..ind.ricDataLen + ind.tspecLen]
  {
    var d := ind.ricTspecData;
    var r, t := ind.ricDataLen, ind.tspecLen;
    assert OrEmpty(RicIe(ind)) == d[..r];
    assert OrEmpty(TspecIe(ind)) == d[r .. r + t];
    assert d[..r] + d[r .. r + t] == d[..r + t];
  }

  // ---------------------------------------------------------------------------
  // Round trip: laying frames out in an event buffer and decoding them again

  /** An event buffer that holds `fixedPart` (the struct), then the
      beacon/probe response, then the two (re)association frames, each a MAC
      header followed by its IEs; `base` supplies every other field. */
  function Layout(base: RoamSyncInd, fixedPart: seq<Byte>, bcn: seq<Byte>,
                  rspHdr: seq<Byte>, rspIes: seq<Byte>, reqHdr: seq<Byte>, reqIes: seq<Byte>): RoamSyncInd
  {
    var bcnOff := |fixedPart|;
    var rspOff := bcnOff + |bcn|;
    var reqOff := rspOff + |rspHdr| + |rspIes|;
    base.(raw := fixedPart + bcn + rspHdr + rspIes + reqHdr + reqIes,
          beaconProbeRespOffset := bcnOff, beaconProbeRespLength := |bcn|,
          reassocRespOffset := rspOff, reassocRespLength := |rspHdr| + |rspIes|,
          reassocReqOffset := reqOff, reassocReqLength := |reqHdr| + |reqIes|)
  }

  function NonEmpty(s: seq<Byte>): Option<seq<Byte>> { if |s| > 0 then Some(s) else None }

  /** Decoding a laid-out buffer gives back every frame byte for byte, with
      the MAC headers stripped; empty frames decode to absent blobs. */
  lemma {:induction false} LayoutRoundTrip(base: RoamSyncInd, fixedPart: seq<Byte>, bcn: seq<Byte>,
                                         rspHdr: seq<Byte>, rspIes: seq<Byte>, reqHdr: seq<Byte>, reqIes: seq<Byte>)
    requires |rspHdr| == WLAN_FRAME_HDR_LEN && |reqHdr| == WLAN_FRAME_HDR_LEN
    ensures IeOffsetsInBounds(Layout(base, fixedPart, bcn, rspHdr, rspIes, reqHdr, reqIes))
    ensures BcnProbeIes(Layout(base, fixedPart, bcn, rspHdr, rspIes, reqHdr, reqIes)) == NonEmpty(bcn)
    ensures ReassocRspIes(Layout(base, fixedPart, bcn, rspHdr, rspIes, reqHdr, reqIes)) == NonEmpty(rspIes)
    ensures ReassocReqIes(Layout(base, fixedPart, bcn, rspHdr, rspIes, reqHdr, reqIes)) == NonEmpty(reqIes)
  {
    var ind := Layout(base, fixedPart, bcn, rspHdr, rspIes, reqHdr, reqIes);
    var raw := ind.raw;
    var a, b, c := |fixedPart|, |fixedPart| + |bcn|, |fixedPart| + |bcn| + |rspHdr| + |rspIes|;
    assert |raw| == c + |reqHdr| + |reqIes|;
    assert raw[a .. b] == bcn by {
      assert raw == fixedPart + bcn + (rspHdr + rspIes + reqHdr + reqIes);
    }
    assert raw[b + |rspHdr| .. c] == rspIes by {
      assert raw == (fixedPart + bcn + rspHdr) + rspIes + (reqHdr + reqIes);
    }
    assert raw[c + |reqHdr| .. c + |reqHdr| + |reqIes|] == reqIes by {
      assert raw == (fixedPart + bcn + rspHdr + rspIes + reqHdr) + reqIes;
    }
  }

  // ---------------------------------------------------------------------------
  // The missing validation, and the check that supplies it

  datatype DecodeError =
    | BcnProbeOutOfBounds | ReassocRspOutOfBounds | ReassocReqOutOfBounds
    | RicTspecOutOfBounds | KckTooLong | KekTooLong | PmkTooLong

  datatype Checked = Valid(ind: RoamSyncInd) | Invalid(error: DecodeError)

  /** Which requirement an error names. */
  predicate Violates(ind: RoamSyncInd, e: DecodeError)
  {
    match e
    case BcnProbeOutOfBounds =>
      BcnProbePresent(ind) && !InBounds(ind.raw, ind.beaconProbeRespOffset, ind.beaconProbeRespLength)
    case ReassocRspOutOfBounds =>
      ReassocIesPresent(ind.reassocRespLength) && !InBounds(ind.raw, ind.reassocRespOffset, ind.reassocRespLength)
    case ReassocReqOutOfBounds =>
      ReassocIesPresent(ind.reassocReqLength) && !InBounds(ind.raw, ind.reassocReqOffset, ind.reassocReqLength)
    case RicTspecOutOfBounds => !RicTspecInBounds(ind)
    case KckTooLong => ind.kckLen > MAX_KCK_LEN
    case KekTooLong => ind.kekLen > MAX_KEK_LEN
    case PmkTooLong => ind.pmkLen > MAX_PMK_LEN
  }

  /** The check the decoder needs before it copies anything: every declared
      offset + length is measured against event_data_len and every key length
      against its array, and the first violation is reported. */
  function ValidateRoamSyncInd(ind: RoamSyncInd): (r: Checked)
    requires Shaped(ind)
    ensures r.Valid? <==> WellFormed(ind)
    ensures r.Valid? ==> r.ind == ind
    ensures r.Invalid? ==> Violates(ind, r.error)
  {
    if BcnProbePresent(ind) && !InBounds(ind.raw, ind.beaconProbeRespOffset, ind.beaconProbeRespLength) then
      Invalid(BcnProbeOutOfBounds)
    else if ReassocIesPresent(ind.reassocRespLength) && !InBounds(ind.raw, ind.reassocRespOffset, ind.reassocRespLength) then
      Invalid(ReassocRspOutOfBounds)
    else if ReassocIesPresent(ind.reassocReqLength) && !InBounds(ind.raw, ind.reassocReqOffset, ind.reassocReqLength) then
      Invalid(ReassocReqOutOfBounds)
    else if !RicTspecInBounds(ind) then Invalid(RicTspecOutOfBounds)
    else if ind.kckLen > MAX_KCK_LEN then Invalid(KckTooLong)
    else if ind.kekLen > MAX_KEK_LEN then Invalid(KekTooLong)
    else if ind.pmkLen > MAX_PMK_LEN then Invalid(PmkTooLong)
    else Valid(ind)
  }

  /** An indication with every field zero and an empty event buffer. */
  function ZeroInd(): RoamSyncInd
  {
    RoamSyncInd([], 0, ZERO_MAC, 0, 0, 0, 0, 0, false, 0, 0, 0, 0, 0, 0, [], 0, 0,
                0, [], 0, [], [], 0, [], [], 0, false, 0, HwModeTransInd(0, 0, 0, []))
  }

  /** As written, cm_populate_connect_ies copies a frame whenever its length
      test passes; nothing compares the offset with event_data_len. A
      one-byte beacon at offset 0 of an empty event passes that test. */
  lemma UncheckedIeOffset()
    ensures exists ind: RoamSyncInd :: BcnProbePresent(ind) && !IeOffsetsInBounds(ind)
  {
    var ind := ZeroInd().(beaconProbeRespLength := 1);
    assert BcnProbePresent(ind) && !IeOffsetsInBounds(ind);
  }

  /** As written, cm_fill_roam_info only tests kck_len for zero before
      copying: a length one past the array passes that test. */
  lemma UncheckedKeyLength()
    ensures exists ind: RoamSyncInd :: ind.kckLen != 0 && !KeyLengthsFit(ind)
  {
    var ind := ZeroInd().(kckLen := MAX_KCK_LEN + 1);
    assert ind.kckLen != 0 && !KeyLengthsFit(ind);
  }
}

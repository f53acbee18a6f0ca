/** The table-driven part of the SoundWire DMIC codec: the mapping between
    the items of the master-port enum control and the SoundWire master port
    numbers, and the classification of a control name as addressing the
    HIFI or the LP slave port. */
module SwrDmicPorts {
  import opened Common

  /** An unsigned 8-bit value (u8). */
  newtype U8 = x: int | 0 <= x < 256

  /** The C conversion of an int to u8: the value modulo 256. */
  function U8Of(x: int): (r: U8)
    ensures 0 <= x < 256 ==> r as int == x
    ensures (r as int - x) % 256 == 0
  {
    (x % 256) as U8
  }

  /** The C conversion of a 64-bit or unsigned 32-bit value to a 32-bit int:
      the low 32 bits read in two's complement. */
  function AsInt32(x: int): (r: int)
    ensures -0x8000_0000 <= r < 0x8000_0000
    ensures -0x8000_0000 <= x < 0x8000_0000 ==> r == x
    ensures (r - x) % 0x1_0000_0000 == 0
  {
    var m := x % 0x1_0000_0000;
    if m >= 0x8000_0000 then m - 0x1_0000_0000 else m
  }

  /** EINVAL of the kernel's errno numbering. */
  const EINVAL := 22

  /** The SoundWire master port numbers; their values are defined outside
      this driver. */
  const SWRM_TX1_CH1: int
  const SWRM_TX1_CH2: int
  const SWRM_TX1_CH3: int
  const SWRM_TX1_CH4: int
  const SWRM_TX2_CH1: int
  const SWRM_TX2_CH2: int
  const SWRM_TX2_CH3: int
  const SWRM_TX2_CH4: int
  const SWRM_TX3_CH1: int
  const SWRM_TX3_CH2: int
  const SWRM_TX3_CH3: int
  const SWRM_TX3_CH4: int
  const SWRM_PCM_IN: int

  /** The slave port types and the size of the per-slave-port table; their
      values are defined outside this driver. */
  const SWR_DMIC_HIFI_PORT: nat
  const SWR_DMIC_LP_PORT: nat
  const SWR_DMIC_MAX_PORTS: nat

  /** The master ports in the order of the items of the enum control
      ("SWRM_TX1_CH1" is item 0, ..., "SWRM_PCM_IN" item 12). */
  function MasterPortTable(): (t: seq<int>)
    ensures |t| == 13
  {
    [SWRM_TX1_CH1, SWRM_TX1_CH2, SWRM_TX1_CH3, SWRM_TX1_CH4,
     SWRM_TX2_CH1, SWRM_TX2_CH2, SWRM_TX2_CH3, SWRM_TX2_CH4,
     SWRM_TX3_CH1, SWRM_TX3_CH2, SWRM_TX3_CH3, SWRM_TX3_CH4,
     SWRM_PCM_IN]
  }

  /** The master port numbers are distinct (they are the labels of one
      switch) and each fits the u8 table that stores them. */
  predicate MasterPortsValid()
  {
    && (forall i, j :: 0 <= i < j < |MasterPortTable()| ==> MasterPortTable()[i] != MasterPortTable()[j])
    && (forall i :: 0 <= i < |MasterPortTable()| ==> 0 <= MasterPortTable()[i] < 256)
  }

  /** get_master_port: the master port of an enum item; any other value
      falls back to SWRM_TX1_CH1. */
  function GetMasterPort(val: int): (port: int)
    ensures 0 <= val < 13 ==> port == MasterPortTable()[val]
    ensures !(0 <= val < 13) ==> port == SWRM_TX1_CH1
    ensures port in MasterPortTable()
  {
    if val == 0 then SWRM_TX1_CH1
    else if val == 1 then SWRM_TX1_CH2
    else if val == 2 then SWRM_TX1_CH3
    else if val == 3 then SWRM_TX1_CH4
    else if val == 4 then SWRM_TX2_CH1
    else if val == 5 then SWRM_TX2_CH2
    else if val == 6 then SWRM_TX2_CH3
    else if val == 7 then SWRM_TX2_CH4
    else if val == 8 then SWRM_TX3_CH1
    else if val == 9 then SWRM_TX3_CH2
    else if val == 10 then SWRM_TX3_CH3
    else if val == 11 then SWRM_TX3_CH4
    else if val == 12 then SWRM_PCM_IN
    else SWRM_TX1_CH1
  }

  /** get_master_port_val: the enum item of a master port, the first in
      table order when the numbers are not distinct; an unknown port falls
      back to item 0. */
  function GetMasterPortVal(masterPort: int): (val: int)
    ensures 0 <= val < 13
    ensures masterPort in MasterPortTable() ==> MasterPortTable()[val] == masterPort
    ensures forall j :: 0 <= j < val ==> MasterPortTable()[j] != masterPort
    ensures masterPort !in MasterPortTable() ==> val == 0
  {
    if masterPort == SWRM_TX1_CH1 then 0
    else if masterPort == SWRM_TX1_CH2 then 1
    else if masterPort == SWRM_TX1_CH3 then 2
    else if masterPort == SWRM_TX1_CH4 then 3
    else if masterPort == SWRM_TX2_CH1 then 4
    else if masterPort == SWRM_TX2_CH2 then 5
    else if masterPort == SWRM_TX2_CH3 then 6
    else if masterPort == SWRM_TX2_CH4 then 7
    else if masterPort == SWRM_TX3_CH1 then 8
    else if masterPort == SWRM_TX3_CH2 then 9
    else if masterPort == SWRM_TX3_CH3 then 10
    else if masterPort == SWRM_TX3_CH4 then 11
    else if masterPort == SWRM_PCM_IN then 12
    else 0
  }

  /** The two switches are inverse: every item survives the round trip
      through its master port, and every known master port the round trip
      through its item. */
  lemma MasterPortRoundTrip(val: int, masterPort: int)
    requires MasterPortsValid()
    ensures 0 <= val < 13 ==> GetMasterPortVal(GetMasterPort(val)) == val
    ensures masterPort in MasterPortTable() ==> GetMasterPort(GetMasterPortVal(masterPort)) == masterPort
  {
    if 0 <= val < 13 {
      var v := GetMasterPortVal(GetMasterPort(val));
      assert MasterPortTable()[v] == MasterPortTable()[val];
    }
  }

  /** Out-of-range items come back as item 0, whatever the port numbers. */
  lemma MasterPortFallback(val: int)
    requires !(0 <= val < 13)
    ensures GetMasterPortVal(GetMasterPort(val)) == 0
  {
  }

  // ---------------------------------------------------------------------------
  // Control-name classification

  /** `pat` occurs in `s` at offset `p`. A pattern without NUL can only
      match inside the string, before its terminator. */
  predicate MatchesAt(s: seq<char>, pat: seq<char>, p: nat)
  {
    p + |pat| <= |s| && s[p..p + |pat|] == pat
  }

  /** `pat` occurs in `s` within its first `len` characters. */
  predicate FoundWithin(s: seq<char>, pat: seq<char>, len: nat)
  {
    exists p: nat :: p + |pat| <= len && MatchesAt(s, pat, p)
  }

  /** The search loop of the kernel's strnstr from offset `pos`, with `len`
      characters of the window left. */
  function StrnstrFrom(s: seq<char>, pat: seq<char>, len: nat, pos: nat): Option<nat>
    requires |pat| > 0
    decreases len
  {
    if len < |pat| then None
    else if MatchesAt(s, pat, pos) then Some(pos)
    else StrnstrFrom(s, pat, len - 1, pos + 1)
  }

  /** strnstr(s, pat, len): the offset of the first occurrence of `pat`
      that ends within the first `len` characters of `s`. */
  function Strnstr(s: seq<char>, pat: seq<char>, len: nat): Option<nat>
  {
    if |pat| == 0 then Some(0) else StrnstrFrom(s, pat, len, 0)
  }

  lemma {:induction false} StrnstrFromFinds(s: seq<char>, pat: seq<char>, len: nat, pos: nat)
    requires |pat| > 0
    ensures var r := StrnstrFrom(s, pat, len, pos);
            && (r.Some? <==> exists p: nat :: pos <= p && p - pos + |pat| <= len && MatchesAt(s, pat, p))
            && (r.Some? ==> pos <= r.value && r.value - pos + |pat| <= len && MatchesAt(s, pat, r.value))
            && (r.Some? ==> forall p: nat :: pos <= p < r.value ==> !MatchesAt(s, pat, p))
    decreases len
  {
    if len >= |pat| && !MatchesAt(s, pat, pos) {
      StrnstrFromFinds(s, pat, len - 1, pos + 1);
      if exists p: nat :: pos <= p && p - pos + |pat| <= len && MatchesAt(s, pat, p) {
        var p: nat :| pos <= p && p - pos + |pat| <= len && MatchesAt(s, pat, p);
        assert p != pos;
        assert pos + 1 <= p && p - (pos + 1) + |pat| <= len - 1;
      }
    }
  }

  /** strnstr finds `pat` iff it occurs within the window, and then returns
      its first occurrence. */
  lemma StrnstrFinds(s: seq<char>, pat: seq<char>, len: nat)
    requires |pat| > 0
    ensures Strnstr(s, pat, len).Some? <==> FoundWithin(s, pat, len)
    ensures Strnstr(s, pat, len).Some? ==>
              MatchesAt(s, pat, Strnstr(s, pat, len).value)
              && forall p: nat :: p < Strnstr(s, pat, len).value ==> !MatchesAt(s, pat, p)
  {
    StrnstrFromFinds(s, pat, len, 0);
  }

  /** sizeof of a string literal: its characters and the terminating NUL. */
  function SizeOfLiteral(lit: string): nat { |lit| + 1 }

  /** The control addresses the HIFI slave port: "HIFI" within sizeof("HIFI") characters. */
  predicate NamesHifi(wname: seq<char>) { FoundWithin(wname, "HIFI", SizeOfLiteral("HIFI")) }
  /** The control addresses the LP slave port: "LP" within sizeof("LP") characters. */
  predicate NamesLp(wname: seq<char>) { FoundWithin(wname, "LP", SizeOfLiteral("LP")) }

  /** The return value of swr_dmic_tx_get_slave_port_type_idx and the value
      left in *port_idx. */
  datatype PortTypeResult = PortTypeResult(ret: int, portIdx: nat)

  /** swr_dmic_tx_get_slave_port_type_idx: HIFI takes precedence over LP;
      a name that is neither returns -EINVAL and leaves *port_idx alone.
      The port type passes through a u8. */
  function SlavePortTypeIdx(wname: seq<char>, portIdx: nat): (r: PortTypeResult)
    ensures r.ret == 0 <==> NamesHifi(wname) || NamesLp(wname)
    ensures r.ret != 0 ==> r.ret == -EINVAL && r.portIdx == portIdx
    ensures NamesHifi(wname) ==> r.portIdx == U8Of(SWR_DMIC_HIFI_PORT) as nat
    ensures !NamesHifi(wname) && NamesLp(wname) ==> r.portIdx == U8Of(SWR_DMIC_LP_PORT) as nat
  {
    StrnstrFinds(wname, "HIFI", SizeOfLiteral("HIFI"));
    StrnstrFinds(wname, "LP", SizeOfLiteral("LP"));
    if Strnstr(wname, "HIFI", SizeOfLiteral("HIFI")).Some? then
      PortTypeResult(0, U8Of(SWR_DMIC_HIFI_PORT) as nat)
    else if Strnstr(wname, "LP", SizeOfLiteral("LP")).Some? then
      PortTypeResult(0, U8Of(SWR_DMIC_LP_PORT) as nat)
    else
      PortTypeResult(-EINVAL, portIdx)
  }

  /** The names of the two port-map controls select their own slave port. */
  lemma PortMapControlNames(portIdx: nat)
    ensures SlavePortTypeIdx("HIFI PortMap", portIdx) == PortTypeResult(0, U8Of(SWR_DMIC_HIFI_PORT) as nat)
    ensures SlavePortTypeIdx("LP PortMap", portIdx) == PortTypeResult(0, U8Of(SWR_DMIC_LP_PORT) as nat)
    ensures SlavePortTypeIdx("TX MODE", portIdx) == PortTypeResult(-EINVAL, portIdx)
  {
    assert MatchesAt("HIFI PortMap", "HIFI", 0);
    assert !NamesHifi("LP PortMap") by {
      forall p: nat | p + 4 <= 5
        ensures !MatchesAt("LP PortMap", "HIFI", p)
      {
        assert "LP PortMap"[p] != 'H';
      }
    }
    assert MatchesAt("LP PortMap", "LP", 0);
    assert !NamesHifi("TX MODE") && !NamesLp("TX MODE") by {
      forall p: nat | p + 2 <= 5
        ensures !MatchesAt("TX MODE", "HIFI", p) && !MatchesAt("TX MODE", "LP", p)
      {
        assert "TX MODE"[p] != 'H' && "TX MODE"[p] != 'L';
      }
    }
  }
}

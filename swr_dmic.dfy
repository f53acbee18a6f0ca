/** The run-time state of the SoundWire DMIC codec: its private data, which
    the mixer controls read and write, and the slave device, whose logical
    device number the reset routine re-reads. */
module SwrDmic {
  import opened Common
  import opened SwrDmicPorts

  /** The items of the "TX MODE" enum control. */
  const TX_MODE_TEXT: seq<string> := ["MIC_HIFI", "MIC_LP"]

  /** The slot of the port map a control addresses: the slave port type its
      name selects, when that indexes the map. */
  function ControlSlot(wname: seq<char>): (slot: Option<nat>)
    ensures slot.Some? ==> slot.value < SWR_DMIC_MAX_PORTS && (NamesHifi(wname) || NamesLp(wname))
    ensures slot.Some? && NamesHifi(wname) ==> slot.value == U8Of(SWR_DMIC_HIFI_PORT) as nat
  {
    var r := SlavePortTypeIdx(wname, 0);
    if r.ret == 0 && r.portIdx < SWR_DMIC_MAX_PORTS then Some(r.portIdx) else None
  }

  /** The value a port-map control reads back from map `m`; `value0` is what
      the control value held before the call. */
  function PortMapValue(m: seq<U8>, wname: seq<char>, value0: int): int
    requires |m| == SWR_DMIC_MAX_PORTS
  {
    match ControlSlot(wname)
    case Some(i) => GetMasterPortVal(m[i] as int)
    case None => value0
  }

  /** The port map after a write of enum item `item` through control `wname`. */
  function PortMapAfterPut(m: seq<U8>, wname: seq<char>, item: nat): seq<U8>
    requires |m| == SWR_DMIC_MAX_PORTS
  {
    match ControlSlot(wname)
    case Some(i) => m[i := U8Of(GetMasterPort(AsInt32(item)))]
    case None => m
  }

  /** A write through a port-map control changes only the slot its name
      selects, and nothing when the name selects none. */
  lemma PutWritesOnlyItsSlot(m: seq<U8>, wname: seq<char>, item: nat)
    requires |m| == SWR_DMIC_MAX_PORTS
    ensures |PortMapAfterPut(m, wname, item)| == |m|
    ensures forall j :: 0 <= j < |m| && ControlSlot(wname) != Some(j) ==> PortMapAfterPut(m, wname, item)[j] == m[j]
    ensures !(NamesHifi(wname) || NamesLp(wname)) ==> PortMapAfterPut(m, wname, item) == m
  {
  }

  /** Reading a port-map control after writing item 0..12 through it gives
      that item back, provided the master port numbers are distinct and fit
      a u8 and the control's slot lies within the map. */
  lemma PutThenGet(m: seq<U8>, wname: seq<char>, item: nat, value0: int)
    requires |m| == SWR_DMIC_MAX_PORTS
    requires MasterPortsValid()
    requires item < 13 && ControlSlot(wname).Some?
    ensures PortMapValue(PortMapAfterPut(m, wname, item), wname, value0) == item
  {
    var port := GetMasterPort(AsInt32(item));
    assert 0 <= port < 256 by {
      assert port == MasterPortTable()[item];
    }
    assert U8Of(port) as int == port;
    MasterPortRoundTrip(item, port);
  }

  /** The HIFI and LP controls do not disturb each other when their slave
      port types differ. */
  lemma HifiAndLpIndependent(m: seq<U8>, item: nat, value0: int)
    requires |m| == SWR_DMIC_MAX_PORTS
    requires U8Of(SWR_DMIC_HIFI_PORT) != U8Of(SWR_DMIC_LP_PORT)
    ensures PortMapValue(PortMapAfterPut(m, "HIFI PortMap", item), "LP PortMap", value0)
            == PortMapValue(m, "LP PortMap", value0)
    ensures PortMapValue(PortMapAfterPut(m, "LP PortMap", item), "HIFI PortMap", value0)
            == PortMapValue(m, "HIFI PortMap", value0)
  {
    PortMapControlNames(0);
  }

  /** The private data of one DMIC (struct swr_dmic_priv): the TX mode and
      the master port assigned to each slave port. */
  class SwrDmicPriv {
    var txMode: int
    const txMasterPortMap: array<U8>

    ghost predicate Valid()
      reads this
    {
      txMasterPortMap.Length == SWR_DMIC_MAX_PORTS
    }

    /** The TX mode names a slot of the port map once it passes through a u8. */
    predicate ModeSelectsSlot()
      reads this
    {
      U8Of(txMode) as int < SWR_DMIC_MAX_PORTS
    }

    /** devm_kzalloc: everything zero. */
    constructor ()
      ensures Valid() && fresh(txMasterPortMap)
      ensures txMode == 0
      ensures forall i :: 0 <= i < txMasterPortMap.Length ==> txMasterPortMap[i] == 0
    {
      txMode := 0;
      txMasterPortMap := new U8[SWR_DMIC_MAX_PORTS](_ => 0);
    }

    /** swr_dmic_tx_master_port_get: reads the item of the master port held
        in the slot the control's name selects; `value0` is the control value
        before the call, left alone when there is nothing to read. */
    method TxMasterPortGet(wname: seq<char>, value0: int) returns (ret: int, value: int)
      requires Valid()
      ensures ret == 0 <==> NamesHifi(wname) || NamesLp(wname)
      ensures ret != 0 ==> ret == -EINVAL && value == value0
      ensures value == PortMapValue(txMasterPortMap[..], wname, value0)
    {
      // slave_port_idx starts uninitialised; it is only read after a success
      var r := SlavePortTypeIdx(wname, 0);
      if r.ret != 0 {
        return r.ret, value0;
      }
      var slavePortIdx := r.portIdx;
      value := value0;
      if 0 <= slavePortIdx < SWR_DMIC_MAX_PORTS {
        value := GetMasterPortVal(txMasterPortMap[slavePortIdx] as int);
      }
      ret := 0;
    }

    /** swr_dmic_tx_master_port_put: stores the master port of enum item
        `item` (an unsigned int, read as int) in the slot the control's name
        selects, when that slot lies within the map. */
    method TxMasterPortPut(wname: seq<char>, item: nat) returns (ret: int)
      requires Valid()
      requires item < 0x1_0000_0000
      modifies txMasterPortMap
      ensures ret == 0 <==> NamesHifi(wname) || NamesLp(wname)
      ensures ret != 0 ==> ret == -EINVAL
      ensures txMasterPortMap[..] == PortMapAfterPut(old(txMasterPortMap[..]), wname, item)
    {
      var r := SlavePortTypeIdx(wname, 0);
      if r.ret != 0 {
        return r.ret;
      }
      var slavePortIdx := r.portIdx;
      if 0 <= slavePortIdx < SWR_DMIC_MAX_PORTS {
        txMasterPortMap[slavePortIdx] := U8Of(GetMasterPort(AsInt32(item)));
      }
      ret := 0;
    }

    /** swr_mic_tx_mode_put as written: the control value (a long) is stored
        in the int tx_mode without any range check. */
    method TxModePut(value: int) returns (ret: int)
      requires -0x8000_0000_0000_0000 <= value < 0x8000_0000_0000_0000
      modifies this`txMode
      ensures ret == 0 && txMode == AsInt32(value)
    {
      txMode := AsInt32(value);
      ret := 0;
    }

    /** swr_mic_tx_mode_put as evidently intended: only an item of the
        "TX MODE" enum that also names a slot of the port map is accepted. */
    method TxModePutChecked(value: int) returns (ret: int)
      modifies this`txMode
      ensures ret == 0 <==> 0 <= value < |TX_MODE_TEXT| && value < SWR_DMIC_MAX_PORTS
      ensures ret == 0 ==> txMode == value && ModeSelectsSlot()
      ensures ret != 0 ==> ret == -EINVAL && txMode == old(txMode)
    {
      if !(0 <= value < |TX_MODE_TEXT|) || value >= SWR_DMIC_MAX_PORTS {
        return -EINVAL;
      }
      txMode := value;
      ret := 0;
    }

    /** swr_mic_tx_mode_get: reports the stored TX mode. */
    method TxModeGet() returns (ret: int, value: int)
      ensures ret == 0 && value == txMode
    {
      value := txMode;
      ret := 0;
    }

    /** The port type dmic_swr_ctrl looks up: the TX mode, narrowed to a u8
        port id, indexes the port map, which it must lie within. */
    method CtrlPortType() returns (portId: U8, portType: U8)
      requires Valid() && ModeSelectsSlot()
      ensures portId == U8Of(txMode) && portType == txMasterPortMap[portId]
    {
      portId := U8Of(txMode);
      portType := txMasterPortMap[portId];
    }
  }

  /** As written, writing -1 to "TX MODE" is accepted and leaves private data
      whose mode selects no slot of the port map: its u8 port id, 255, lies
      past the end of any map of fewer than 256 slots, so the lookup of
      dmic_swr_ctrl (CtrlPortType) would index outside the map. */
  method TxModeUncheckedIndex(priv: SwrDmicPriv) returns (ret: int)
    requires priv.Valid() && SWR_DMIC_MAX_PORTS <= 255
    modifies priv`txMode
    ensures ret == 0 && priv.txMode == -1 && U8Of(priv.txMode) == 255
    ensures !priv.ModeSelectsSlot()
  {
    ret := priv.TxModePut(-1);
  }

  // ---------------------------------------------------------------------------
  // swr_dmic_reset

  /** One reply of swr_get_logical_dev_num: its status and the device number
      it stored, if it stored one. */
  datatype DevNumReply = DevNumReply(status: int, written: Option<U8>)

  /** The device number after a run of replies, starting from `init`. */
  function LastWritten(rs: seq<DevNumReply>, init: U8): U8
  {
    if rs == [] then init
    else if rs[|rs| - 1].written.Some? then rs[|rs| - 1].written.value
    else LastWritten(rs[..|rs| - 1], init)
  }

  /** A SoundWire slave device (struct swr_device): the logical device
      number the master assigned and the driver data attached to it. */
  class SwrDevice {
    var devNum: U8
    var drvData: SwrDmicPriv?

    constructor (priv: SwrDmicPriv?)
      ensures devNum == 0 && drvData == priv
    {
      devNum := 0;
      drvData := priv;
    }

    /** swr_dmic_reset: re-reads the logical device number, retrying after a
        1 ms sleep while the read fails and the u8 retry counter, tested and
        then decremented, was not yet 0. `replies` are the answers of
        successive reads. */
    method Reset(replies: seq<DevNumReply>) returns (ret: int, calls: nat, sleeps: nat)
      requires |replies| >= 6
      modifies this`devNum
      ensures drvData == null ==> ret == -EINVAL && calls == 0 && sleeps == 0 && devNum == old(devNum)
      ensures drvData != null ==>
                && ret == 0
                && 1 <= calls <= 6 && sleeps == calls - 1
                && (forall i :: 0 <= i < calls - 1 ==> replies[i].status != 0)
                && (calls < 6 ==> replies[calls - 1].status == 0)
                && devNum == LastWritten(replies[..calls], 0)
    {
      if drvData == null {
        return -EINVAL, 0, 0;
      }
      var retry: U8 := 5;
      var devnum: U8 := 0;
      calls, sleeps := 0, 0;
      var looping := true;
      while looping
        invariant calls <= 6
        invariant looping ==> retry as int == 5 - calls && sleeps == calls
        invariant !looping ==> 1 <= calls && sleeps == calls - 1 && (calls < 6 ==> replies[calls - 1].status == 0)
        invariant forall i :: 0 <= i < (if looping then calls else calls - 1) ==> replies[i].status != 0
        invariant devnum == LastWritten(replies[..calls], 0)
        decreases 6 - calls + (if looping then 1 else 0)
      {
        var reply := replies[calls];
        assert replies[..calls + 1][..calls] == replies[..calls];
        calls := calls + 1;
        if reply.written.Some? {
          devnum := reply.written.value;
        }
        if reply.status == 0 {
          looping := false;
        } else {
          // retry--: the old value is tested, the u8 then decremented
          var tested := retry;
          retry := if retry == 0 then 255 else retry - 1;
          if tested == 0 {
            looping := false;
          } else {
            sleeps := sleeps + 1;
          }
        }
      }
      devNum := devnum;
      ret := 0;
    }
  }
}

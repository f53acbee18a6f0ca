/** swr_dmic_probe: attaches the private data to the slave device, reads the
    device-tree strings and the logical device number, looks the codec name
    up in the list of known DMICs and builds the DAI and AIF names from its
    index, then registers the component. */
module SwrDmicProbe {
  import opened Common
  import opened SwrDmicPorts
  import opened SwrDmic

  /** ENOMEM of the kernel's errno numbering. */
  const ENOMEM := 12

  const NUL: char := '\0'

  /** The codec names a DMIC node may carry, in lookup order. */
  const CODEC_NAME_LIST: seq<string> := ["swr-dmic-01", "swr-dmic-02", "swr-dmic-03", "swr-dmic-04", "swr-dmic-05"]

  const DEFAULT_CODEC_NAME: string := "swr_dmic_tx0"
  const DEFAULT_AIF_NAME: string := "SWR_DMIC_AIF0 Playback"
  const DAI_NAME_NUM_INDEX := 11
  const AIF_NAME_NUM_INDEX := 12

  /** itoa: the decimal digit of a single-digit index. */
  function Itoa(x: nat): (c: char)
    requires x < 10
    ensures '0' <= c <= '9'
  {
    ('0' as int + x) as char
  }

  /** The index of the first occurrence of `x` in `s`, or |s| if none. */
  function FirstIndexOf<T(==)>(s: seq<T>, x: T): (i: nat)
    ensures i <= |s|
    ensures i < |s| ==> s[i] == x
    ensures forall j :: 0 <= j < i ==> s[j] != x
    ensures i == |s| <==> x !in s
  {
    if s == [] then 0
    else if s[0] == x then 0
    else 1 + FirstIndexOf(s[1..], x)
  }

  /** The string a C reader sees in a buffer: the characters before the
      first NUL, or nothing when the buffer holds no NUL and the read runs
      past its end. */
  function CString(buf: seq<char>): (r: Option<seq<char>>)
    ensures r.Some? <==> NUL in buf
    ensures r.Some? ==> NUL !in r.value && |r.value| < |buf| && buf[..|r.value|] == r.value && buf[|r.value|] == NUL
  {
    if NUL in buf then Some(buf[..FirstIndexOf(buf, NUL)]) else None
  }

  /** The codec-name lookup loop of swr_dmic_probe (strcmp on each entry). */
  method FindCodecName(name: seq<char>) returns (i: nat)
    ensures i == FirstIndexOf(CODEC_NAME_LIST, name)
  {
    i := 0;
    while i < |CODEC_NAME_LIST|
      invariant i <= |CODEC_NAME_LIST|
      invariant forall j :: 0 <= j < i ==> CODEC_NAME_LIST[j] != name
    {
      if CODEC_NAME_LIST[i] == name {
        break;
      }
      i := i + 1;
    }
  }

  /** The name buffer built from `template` for codec index `i`: the digit
      at `digitIndex` replaced by itoa(i). As written the buffer holds
      strlen(template) characters and no terminator; `terminated` adds the
      NUL byte the C string needs. */
  function NameBuffer(template: string, digitIndex: nat, i: nat, terminated: bool): (buf: seq<char>)
    requires digitIndex < |template| && i < 10
    ensures |buf| == |template| + (if terminated then 1 else 0)
  {
    template[digitIndex := Itoa(i)] + (if terminated then [NUL] else [])
  }

  /** Writing the digit into a buffer that already holds the terminator
      gives the same bytes as appending the terminator afterwards. */
  lemma DigitThenTerminator(template: string, digitIndex: nat, i: nat, terminated: bool)
    requires digitIndex < |template| && i < 10
    ensures (template + (if terminated then [NUL] else []))[digitIndex := Itoa(i)]
            == NameBuffer(template, digitIndex, i, terminated)
  {
  }

  /** The DAI and AIF names the driver means to give codec `i`. */
  function DaiNameOf(i: nat): string requires i < 10 { "swr_dmic_tx" + [Itoa(i)] }
  function AifNameOf(i: nat): string requires i < 10 { "SWR_DMIC_AIF" + [Itoa(i)] + " Playback" }

  /** A NUL appended to a string free of NUL reads back as that string;
      without it the read finds no end. */
  lemma TerminatedRead(name: string)
    requires NUL !in name
    ensures CString(name + [NUL]) == Some(name)
    ensures CString(name) == None
  {
    assert FirstIndexOf(name + [NUL], NUL) == |name|;
    assert (name + [NUL])[..|name|] == name;
  }

  /** The DAI name buffer holds the intended name: terminated it reads as
      that name, as written (no NUL) the read runs past its end. */
  lemma DaiNameBufferRead(i: nat)
    requires i < 10
    ensures CString(NameBuffer(DEFAULT_CODEC_NAME, DAI_NAME_NUM_INDEX, i, true)) == Some(DaiNameOf(i))
    ensures CString(NameBuffer(DEFAULT_CODEC_NAME, DAI_NAME_NUM_INDEX, i, false)) == None
  {
    var dai := DaiNameOf(i);
    assert NameBuffer(DEFAULT_CODEC_NAME, DAI_NAME_NUM_INDEX, i, false) == dai;
    assert NameBuffer(DEFAULT_CODEC_NAME, DAI_NAME_NUM_INDEX, i, true) == dai + [NUL];
    assert NUL !in dai by {
      assert forall k :: 0 <= k < |dai| ==> dai[k] != NUL;
    }
    TerminatedRead(dai);
  }

  /** The AIF name buffer, likewise. */
  lemma AifNameBufferRead(i: nat)
    requires i < 10
    ensures CString(NameBuffer(DEFAULT_AIF_NAME, AIF_NAME_NUM_INDEX, i, true)) == Some(AifNameOf(i))
    ensures CString(NameBuffer(DEFAULT_AIF_NAME, AIF_NAME_NUM_INDEX, i, false)) == None
  {
    var aif := AifNameOf(i);
    assert NameBuffer(DEFAULT_AIF_NAME, AIF_NAME_NUM_INDEX, i, false) == aif;
    assert NameBuffer(DEFAULT_AIF_NAME, AIF_NAME_NUM_INDEX, i, true) == aif + [NUL];
    assert NUL !in aif by {
      assert forall k :: 0 <= k < |aif| ==> aif[k] != NUL;
    }
    TerminatedRead(aif);
  }

  /** Distinct codecs get distinct DAI and AIF names. */
  lemma NamesDistinct(i: nat, j: nat)
    requires i < 10 && j < 10 && i != j
    ensures DaiNameOf(i) != DaiNameOf(j)
    ensures AifNameOf(i) != AifNameOf(j)
  {
    assert DaiNameOf(i)[11] != DaiNameOf(j)[11];
    assert AifNameOf(i)[12] != AifNameOf(j)[12];
  }

  // ---------------------------------------------------------------------------
  // The probe

  /** The answers of the services swr_dmic_probe calls. */
  datatype ProbeEnv = ProbeEnv(
    privAlloc: bool,        // devm_kzalloc(swr_dmic_priv)
    prefixStatus: int,      // of_property_read_string("qcom,swr-dmic-prefix")
    codecNameStatus: int,   // of_property_read_string("qcom,codec-name")
    codecName: seq<char>,   //   and the string it read
    devNumStatus: int,      // swr_get_logical_dev_num
    devNum: U8,             //   and the number it read
    driverAlloc: bool,      // devm_kzalloc(snd_soc_component_driver)
    driverNameAlloc: bool,  // devm_kzalloc(strlen(codec name))
    daiDriverAlloc: bool,   // devm_kzalloc(snd_soc_dai_driver)
    daiNameAlloc: bool,     // devm_kzalloc of the DAI name
    aifNameAlloc: bool,     // devm_kzalloc of the AIF name
    registerStatus: int,    // snd_soc_register_component
    namePrefixAlloc: bool)  // devm_kzalloc(strlen(prefix))

  /** The DAI driver handed to the ASoC core: name buffer, id and playback
      stream name buffer. */
  datatype DaiDriver = DaiDriver(name: seq<char>, id: nat, streamName: seq<char>)

  /** What the probe leaves behind: its return value, the device number it
      stored in the slave device, the DAI it registered, and whether it took
      the dev_err path (VDD off and the slave device removed). */
  datatype ProbeResult = ProbeResult(ret: int, devNum: Option<U8>, registered: Option<DaiDriver>, removed: bool)

  /** The outcome once the logical device number has been read. `checked`
      selects the evidently intended probe: an unknown codec name fails
      with -EINVAL and the name buffers carry their terminator. */
  function AfterDevNum(env: ProbeEnv, checked: bool): ProbeResult
  {
    var dn := Some(env.devNum);
    var i := FirstIndexOf(CODEC_NAME_LIST, env.codecName);
    if !env.driverAlloc || !env.driverNameAlloc then ProbeResult(-ENOMEM, dn, None, true)
    else if i == |CODEC_NAME_LIST| then ProbeResult(if checked then -EINVAL else 0, dn, None, true)
    else if !env.daiDriverAlloc || !env.daiNameAlloc || !env.aifNameAlloc then ProbeResult(-ENOMEM, dn, None, true)
    else if env.registerStatus != 0 then ProbeResult(env.registerStatus, dn, None, true)
    else
      var dai := DaiDriver(NameBuffer(DEFAULT_CODEC_NAME, DAI_NAME_NUM_INDEX, i, checked), i,
                           NameBuffer(DEFAULT_AIF_NAME, AIF_NAME_NUM_INDEX, i, checked));
      if !env.namePrefixAlloc then ProbeResult(-ENOMEM, dn, Some(dai), true)
      else ProbeResult(0, dn, Some(dai), false)
  }

  /** The outcome of swr_dmic_probe. */
  function ProbeOutcome(env: ProbeEnv, checked: bool): ProbeResult
  {
    if !env.privAlloc then ProbeResult(-ENOMEM, None, None, false)
    else if env.prefixStatus != 0 then ProbeResult(env.prefixStatus, None, None, false)
    else if env.codecNameStatus != 0 then ProbeResult(env.codecNameStatus, None, None, false)
    else if env.devNumStatus != 0 then ProbeResult(env.devNumStatus, None, None, true)
    else AfterDevNum(env, checked)
  }

  /** The part of swr_dmic_probe after the device number is stored:
      component driver allocation, the codec-name lookup, the DAI and AIF
      name buffers and the registration. */
  method Register(env: ProbeEnv, checked: bool) returns (res: ProbeResult)
    ensures res == AfterDevNum(env, checked)
  {
    var dn := Some(env.devNum);
    if !env.driverAlloc || !env.driverNameAlloc {
      return ProbeResult(-ENOMEM, dn, None, true);
    }
    var i := FindCodecName(env.codecName);
    if i == |CODEC_NAME_LIST| {
      // as written, ret still holds the 0 of the device-number read
      var ret := if checked then -EINVAL else 0;
      return ProbeResult(ret, dn, None, true);
    }
    if !env.daiDriverAlloc || !env.daiNameAlloc {
      return ProbeResult(-ENOMEM, dn, None, true);
    }
    var daiName := DEFAULT_CODEC_NAME + (if checked then [NUL] else []);
    daiName := daiName[DAI_NAME_NUM_INDEX := Itoa(i)];
    if !env.aifNameAlloc {
      return ProbeResult(-ENOMEM, dn, None, true);
    }
    var aifName := DEFAULT_AIF_NAME + (if checked then [NUL] else []);
    aifName := aifName[AIF_NAME_NUM_INDEX := Itoa(i)];
    DigitThenTerminator(DEFAULT_CODEC_NAME, DAI_NAME_NUM_INDEX, i, checked);
    DigitThenTerminator(DEFAULT_AIF_NAME, AIF_NAME_NUM_INDEX, i, checked);
    var dai := DaiDriver(daiName, i, aifName);
    if env.registerStatus != 0 {
      return ProbeResult(env.registerStatus, dn, None, true);
    }
    if !env.namePrefixAlloc {
      return ProbeResult(-ENOMEM, dn, Some(dai), true);
    }
    res := ProbeResult(0, dn, Some(dai), false);
  }

  /** swr_dmic_probe on slave device `pdev`; `checked` selects the corrected
      variant. The VDD pin control and the 5 ms enumeration delay have no
      effect on the outcome. */
  method Probe(pdev: SwrDevice, env: ProbeEnv, checked: bool) returns (res: ProbeResult)
    modifies pdev`devNum, pdev`drvData
    ensures res == ProbeOutcome(env, checked)
    ensures res.devNum.Some? ==> pdev.devNum == res.devNum.value
    ensures res.devNum.None? ==> pdev.devNum == old(pdev.devNum)
    ensures env.privAlloc ==> pdev.drvData != null && fresh(pdev.drvData)
    ensures !env.privAlloc ==> pdev.drvData == old(pdev.drvData)
  {
    if !env.privAlloc {
      return ProbeResult(-ENOMEM, None, None, false);
    }
    var swrDmic := new SwrDmicPriv();
    pdev.drvData := swrDmic;
    var ret := env.prefixStatus;
    if ret != 0 {
      return ProbeResult(ret, None, None, false);    // err:
    }
    ret := env.codecNameStatus;
    if ret != 0 {
      return ProbeResult(ret, None, None, false);    // err:
    }
    ret := env.devNumStatus;
    if ret != 0 {
      return ProbeResult(ret, None, None, true);     // dev_err:
    }
    pdev.devNum := env.devNum;
    res := Register(env, checked);
  }

  /** A registered DAI belongs to the first listed codec name equal to the
      node's, with that index as id and the names built from it; the
      device number read is stored before. */
  lemma RegisteredDaiMatchesCodec(env: ProbeEnv, checked: bool)
    ensures var r := ProbeOutcome(env, checked);
            r.registered.Some? ==>
              var d := r.registered.value;
              && d.id < |CODEC_NAME_LIST| && CODEC_NAME_LIST[d.id] == env.codecName
              && (forall j :: 0 <= j < d.id ==> CODEC_NAME_LIST[j] != env.codecName)
              && d.name == NameBuffer(DEFAULT_CODEC_NAME, DAI_NAME_NUM_INDEX, d.id, checked)
              && d.streamName == NameBuffer(DEFAULT_AIF_NAME, AIF_NAME_NUM_INDEX, d.id, checked)
              && r.devNum == Some(env.devNum)
  {
  }

  /** As written, any codec name missing from the list takes the dev_err
      path (nothing registered, the slave device removed) yet returns 0;
      "swr-dmic-06" is such a name. */
  lemma UnknownCodecNameReportsSuccess(env: ProbeEnv)
    requires env.privAlloc && env.prefixStatus == 0 && env.codecNameStatus == 0 && env.devNumStatus == 0
    requires env.driverAlloc && env.driverNameAlloc
    requires env.codecName !in CODEC_NAME_LIST
    ensures ProbeOutcome(env, false) == ProbeResult(0, Some(env.devNum), None, true)
    ensures "swr-dmic-06" !in CODEC_NAME_LIST
  {
    forall k | 0 <= k < |CODEC_NAME_LIST|
      ensures CODEC_NAME_LIST[k] != "swr-dmic-06"
    {
      assert CODEC_NAME_LIST[k][10] != '6';
    }
  }

  /** The corrected probe returns 0 exactly when it registered a DAI and
      kept the device, and every DAI it registers carries terminated names
      that read as the intended ones. */
  lemma CheckedProbeSucceedsIffRegistered(env: ProbeEnv)
    ensures var r := ProbeOutcome(env, true);
            r.ret == 0 <==> r.registered.Some? && !r.removed
    ensures var r := ProbeOutcome(env, true);
            r.registered.Some? ==>
              && CString(r.registered.value.name) == Some(DaiNameOf(r.registered.value.id))
              && CString(r.registered.value.streamName) == Some(AifNameOf(r.registered.value.id))
  {
    var r := ProbeOutcome(env, true);
    if r.registered.Some? {
      DaiNameBufferRead(r.registered.value.id);
      AifNameBufferRead(r.registered.value.id);
    }
  }
}

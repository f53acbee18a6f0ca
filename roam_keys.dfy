/** cm_process_roam_keys: after a roam, either reconcile the PMK with the
    PMKSA cache (the firmware already completed the handshake, or the AKM is
    SAE/OWE) or arm the wait-for-key timer for the host supplicant. */
module RoamKeys {
  import opened Common
  import opened RoamInd
  import opened RoamEvents
  import opened RoamRsp

  /** Bit positions of WLAN_CRYPTO_KEY_MGMT_SAE / _OWE in the AKM bitmap. */
  const WLAN_CRYPTO_KEY_MGMT_SAE: nat
  const WLAN_CRYPTO_KEY_MGMT_OWE: nat
  /** WAIT_FOR_KEY_TIMEOUT_PERIOD, in milliseconds. */
  const WAIT_FOR_KEY_TIMEOUT_PERIOD: nat

  /** The answers of the services cm_process_roam_keys consults. */
  datatype KeysEnv = KeysEnv(
    pdevPresent: bool,           // wlan_vdev_get_pdev != NULL
    psocPresent: bool,           // wlan_pdev_get_psoc != NULL
    mlmeObjPresent: bool,        // mlme_get_psoc_ext_obj != NULL
    akm: set<nat>,               // set bits of WLAN_CRYPTO_PARAM_KEY_MGMT
    pmkidCacheAlloc: bool,       // qdf_mem_malloc(sizeof(*pmkid_cache)) succeeds
    bssPeerMac: MacAddr,         // wlan_vdev_get_bss_peer_mac
    lookup: Option<PmksaRecord>, // cm_lookup_pmkid_using_bssid: hit and the entry it fills
    is11r: bool)                 // cm_is_auth_type_11r(mlme_obj, vdev, mdie_present)

  /** The temporary PMKSA entry after qdf_mem_zero. */
  function ZeroPmksa(): PmksaRecord
  {
    PmksaRecord(ZERO_MAC, seq(PMKID_LEN, i => 0 as Byte), [], 0)
  }

  /** Which of the four outcomes of the key step a roam takes. */
  datatype KeyPlan = InstallCachedPmk | InstallIndicationPmk | NoPmkUpdate | ArmWaitForKey

  /** The keys are settled without the host supplicant: the firmware
      authenticated, or the AKM is SAE or OWE. */
  predicate KeysSettled(authStatus: nat, akm: set<nat>)
  {
    authStatus == ROAM_AUTH_STATUS_AUTHENTICATED
    || WLAN_CRYPTO_KEY_MGMT_SAE in akm || WLAN_CRYPTO_KEY_MGMT_OWE in akm
  }

  /** The decision of cm_process_roam_keys. A cached PMK wins; otherwise the
      indication's PMK is used unless the roam is 11r or carries no PMK. */
  function KeyPlanFor(authStatus: nat, akm: set<nat>, cacheHit: bool, is11r: bool, pmkLen: nat): (p: KeyPlan)
    ensures p == ArmWaitForKey <==> !KeysSettled(authStatus, akm)
    ensures p == InstallCachedPmk <==> KeysSettled(authStatus, akm) && cacheHit
    ensures p == InstallIndicationPmk <==> KeysSettled(authStatus, akm) && !cacheHit && !is11r && pmkLen > 0
  {
    if !KeysSettled(authStatus, akm) then ArmWaitForKey
    else if cacheHit then InstallCachedPmk
    else if !is11r && pmkLen > 0 then InstallIndicationPmk
    else NoPmkUpdate
  }

  /** The key material cm_process_roam_keys reads from the roaming info;
      `pmk` holds the first pmk_len bytes. */
  datatype KeyMaterial = KeyMaterial(authStatus: nat, pmk: seq<Byte>, pmkid: seq<Byte>)

  function KeyMaterialOf(info: RoamSyncInfo): (k: KeyMaterial)
    requires info.pmkLen <= info.pmk.Length
    reads info, info.pmk, info.pmkid
    ensures |k.pmk| == info.pmkLen
  {
    KeyMaterial(info.authStatus, info.pmk[..info.pmkLen], info.pmkid[..])
  }

  /** The pdev, psoc and MLME psoc object can all be found. */
  predicate EnvReady(env: KeysEnv) { env.pdevPresent && env.psocPresent && env.mlmeObjPresent }

  function PlanOf(k: KeyMaterial, env: KeysEnv): KeyPlan
  {
    KeyPlanFor(k.authStatus, env.akm, env.lookup.Some?, env.is11r, |k.pmk|)
  }

  /** The status cm_process_roam_keys returns. */
  function KeyStatus(k: KeyMaterial, env: KeysEnv): QdfStatus
  {
    if !EnvReady(env) then EFailure
    else if KeysSettled(k.authStatus, env.akm) && !env.pmkidCacheAlloc then ENoMem
    else Success
  }

  /** The PMK installation calls of each plan (the pmkid_cache entry is in use). */
  function PmkEvents(vdevId: VdevId, k: KeyMaterial, env: KeysEnv): seq<Event>
  {
    match PlanOf(k, env)
    case InstallCachedPmk => [SetPskPmk(vdevId, env.lookup.value.pmk, env.lookup.value.pmkLen)]
    case InstallIndicationPmk =>
      [SetPskPmk(vdevId, k.pmk, |k.pmk|), PmksaAdd(PmksaRecord(env.bssPeerMac, k.pmkid, k.pmk, |k.pmk|))]
    case _ => []
  }

  /** The calls cm_process_roam_keys makes, in order. */
  function KeyEvents(vdevId: VdevId, k: KeyMaterial, env: KeysEnv): seq<Event>
  {
    if !EnvReady(env) then []
    else if !KeysSettled(k.authStatus, env.akm) then [WaitForKeyTimer(vdevId, WAIT_FOR_KEY_TIMEOUT_PERIOD)]
    else if !env.pmkidCacheAlloc then [CsrSetSsNone(vdevId)]
    else [CsrSetSsNone(vdevId)] + PmkEvents(vdevId, k, env) + [FreePmkidCache(ZeroPmksa())]
  }

  /** cm_process_roam_keys for the vdev `vdevId` whose roaming info is
      `info`. The status is what the function returns; its caller ignores it. */
  method ProcessRoamKeys(vdevId: VdevId, info: RoamSyncInfo, env: KeysEnv) returns (status: QdfStatus, events: seq<Event>)
    requires info.pmkLen <= info.pmk.Length
    ensures status == KeyStatus(KeyMaterialOf(info), env)
    ensures events == KeyEvents(vdevId, KeyMaterialOf(info), env)
  {
    events := [];
    if !env.pdevPresent || !env.psocPresent || !env.mlmeObjPresent {
      return EFailure, events;
    }
    status := Success;
    if info.authStatus == ROAM_AUTH_STATUS_AUTHENTICATED
       || WLAN_CRYPTO_KEY_MGMT_SAE in env.akm || WLAN_CRYPTO_KEY_MGMT_OWE in env.akm {
      events := events + [CsrSetSsNone(vdevId)];
      if !env.pmkidCacheAlloc {
        return ENoMem, events;
      }
      var cache := ZeroPmksa().(bssid := env.bssPeerMac);
      if env.lookup.Some? {
        cache := env.lookup.value;
        events := events + [SetPskPmk(vdevId, cache.pmk, cache.pmkLen)];
      } else if !env.is11r && info.pmkLen > 0 {
        cache := ZeroPmksa();
        events := events + [SetPskPmk(vdevId, info.pmk[..info.pmkLen], info.pmkLen)];
        cache := cache.(bssid := env.bssPeerMac);
        cache := cache.(pmkid := info.pmkid[..]);
        cache := cache.(pmk := info.pmk[..info.pmkLen]);
        cache := cache.(pmkLen := info.pmkLen);
        events := events + [PmksaAdd(cache)];
      }
      cache := ZeroPmksa();
      events := events + [FreePmkidCache(cache)];
    } else {
      events := events + [WaitForKeyTimer(vdevId, WAIT_FOR_KEY_TIMEOUT_PERIOD)];
    }
  }

  // ---------------------------------------------------------------------------
  // What the key step promises

  /** Without pdev, psoc or MLME object nothing happens and E_FAILURE is returned. */
  lemma KeyFailureQuiet(vdevId: VdevId, k: KeyMaterial, env: KeysEnv)
    ensures KeyStatus(k, env) == EFailure <==> !EnvReady(env)
    ensures !EnvReady(env) ==> KeyEvents(vdevId, k, env) == []
  {
  }

  /** Exactly one branch runs: the wait-for-key timer is armed, alone, iff the
      keys are not settled; otherwise the PMKSA branch runs. */
  lemma KeyBranchesExclusive(vdevId: VdevId, k: KeyMaterial, env: KeysEnv)
    requires EnvReady(env)
    ensures var ev := KeyEvents(vdevId, k, env);
            && (WaitForKeyTimer(vdevId, WAIT_FOR_KEY_TIMEOUT_PERIOD) in ev <==> PlanOf(k, env) == ArmWaitForKey)
            && (PlanOf(k, env) == ArmWaitForKey ==> ev == [WaitForKeyTimer(vdevId, WAIT_FOR_KEY_TIMEOUT_PERIOD)])
            && (CsrSetSsNone(vdevId) in ev <==> PlanOf(k, env) != ArmWaitForKey)
  {
    var ev := KeyEvents(vdevId, k, env);
    if PlanOf(k, env) != ArmWaitForKey {
      assert ev[0] == CsrSetSsNone(vdevId);
      assert forall e :: e in ev ==> !e.WaitForKeyTimer?;
    }
  }

  /** The PMK installed is the cached one on a lookup hit, and the
      indication's only on a miss outside 11r with a non-empty PMK; a new
      PMKSA entry is added only in that last case, with the indication's PMKID. */
  lemma InstalledPmk(vdevId: VdevId, k: KeyMaterial, env: KeysEnv)
    ensures forall e :: e in KeyEvents(vdevId, k, env) && e.SetPskPmk? ==>
              KeysSettled(k.authStatus, env.akm) && env.pmkidCacheAlloc
              && (if env.lookup.Some? then e.pmk == env.lookup.value.pmk && e.pmkLen == env.lookup.value.pmkLen
                  else !env.is11r && e.pmk == k.pmk && e.pmkLen == |k.pmk| > 0)
    ensures forall e :: e in KeyEvents(vdevId, k, env) && e.PmksaAdd? ==>
              env.lookup.None? && !env.is11r && |k.pmk| > 0
              && e.entry == PmksaRecord(env.bssPeerMac, k.pmkid, k.pmk, |k.pmk|)
  {
  }

  /** The events that use the contents of the temporary PMKSA entry. */
  predicate InstallsPmk(e: Event) { e.SetPskPmk? || e.PmksaAdd? }

  /** The temporary pmkid_cache entry is freed at most once, after every use
      of its contents, and only after it has been zeroed. */
  lemma TempEntryZeroedBeforeFree(vdevId: VdevId, k: KeyMaterial, env: KeysEnv)
    ensures forall e :: e in KeyEvents(vdevId, k, env) && e.FreePmkidCache? ==> e.contents == ZeroPmksa()
    ensures Count(KeyEvents(vdevId, k, env), FreePmkidCache(ZeroPmksa())) <= 1
    ensures var ev := KeyEvents(vdevId, k, env);
            forall i :: 0 <= i < |ev| && InstallsPmk(ev[i]) ==> i < |ev| - 1 && ev[|ev| - 1] == FreePmkidCache(ZeroPmksa())
  {
    var ev := KeyEvents(vdevId, k, env);
    var pe := PmkEvents(vdevId, k, env);
    assert forall e :: e in pe ==> InstallsPmk(e);
    if EnvReady(env) && KeysSettled(k.authStatus, env.akm) && env.pmkidCacheAlloc {
      assert ev == [CsrSetSsNone(vdevId)] + pe + [FreePmkidCache(ZeroPmksa())];
      assert multiset(ev)[FreePmkidCache(ZeroPmksa())] == 1 by {
        assert multiset(ev) == multiset([CsrSetSsNone(vdevId)]) + multiset(pe) + multiset([FreePmkidCache(ZeroPmksa())]);
      }
    } else {
      assert forall e :: e in ev ==> !e.FreePmkidCache? && !InstallsPmk(e);
      assert multiset(ev)[FreePmkidCache(ZeroPmksa())] == 0;
    }
  }
}

/** Types shared by the roam-sync model: bytes, MAC addresses, QDF status codes,
    and the (length, owned buffer) pairs the connect response carries. */
module Common {

  type Byte = bv8

  /** A 6-byte IEEE MAC address (struct qdf_mac_addr). */
  type MacAddr = s: seq<Byte> | |s| == 6 witness [0, 0, 0, 0, 0, 0]

  const ZERO_MAC: MacAddr := [0, 0, 0, 0, 0, 0]

  datatype Option<T> = None | Some(value: T)

  /** The QDF_STATUS values the roam-sync code returns or forwards; `EOther`
      stands for any status a foreign service may report. */
  datatype QdfStatus = Success | EFailure | ENoMem | ENullValue | EOther(code: nat)
  {
    /** QDF_IS_STATUS_ERROR: every status other than QDF_STATUS_SUCCESS. */
    predicate IsError() { !Success? }
  }

  /** A length + heap-pointer pair (qdf buffer in struct wlan_connect_rsp_ies).
      `ptr == None` is a NULL pointer; the length may be set while the
      pointer is still NULL when the allocation that follows it fails. */
  datatype Buf = Buf(len: nat, ptr: Option<seq<Byte>>)
  {
    /** The pair owns exactly `len` bytes, or is empty. */
    predicate Owned() { if len == 0 then ptr.None? else ptr.Some? && |ptr.value| == len }
  }

  const EMPTY_BUF := Buf(0, None)

  /** The buffer the copy of an optional blob produces: absent blobs stay empty,
      present ones own exactly their bytes. */
  function BufOf(blob: Option<seq<Byte>>): (b: Buf)
    ensures blob.Some? && |blob.value| > 0 ==> b.Owned() && b.ptr == blob
    ensures blob.None? ==> b == EMPTY_BUF
  {
    match blob
    case None => EMPTY_BUF
    case Some(bytes) => Buf(|bytes|, Some(bytes))
  }

  /** An object pointer that may be NULL (used where the model has to show
      that a NULL pointer reaches a foreign service). */
  datatype Handle = Null | Ptr(id: nat)
}

/**
 * Resolving the access code shown in the QR modal: the optional detail re-fetch of
 * `handleShowQR` and the fallback chain the modal renders.
 */
module QrCode {
  import opened Wrappers
  import opened JsValues
  import opened InvitationData

  /** `!invitation.qrCode && invitation.id != null`: the list item is re-fetched by id. */
  predicate NeedsDetailFetch(inv: Invitation) {
    !IsTruthyString(inv.qrCode) && inv.id.Some?
  }

  /** `res.data?.success && res.data?.data`: the detail reply is adopted. */
  predicate DetailAccepted(detail: Reply<DetailBody>) {
    detail.Got? && IsTruthyFlag(detail.body.success) && detail.body.data.Some?
  }

  /** The path of the detail request, `String(invitation.id)`. */
  function DetailPath(inv: Invitation): (path: string)
    requires NeedsDetailFetch(inv)
    ensures inv.id.value.StrId? ==> path == inv.id.value.text
    ensures inv.id.value.NumId? ==> path != ""
  {
    IdToString(inv.id.value)
  }

  /** The invitation `handleShowQR` opens the modal with, given the detail reply (ignored when no fetch is made). */
  function QrInvitation(inv: Invitation, detail: Reply<DetailBody>): (chosen: Invitation)
    ensures !NeedsDetailFetch(inv) ==> chosen == inv
    ensures detail.Thrown? ==> chosen == inv
    ensures chosen != inv ==> NeedsDetailFetch(inv) && DetailAccepted(detail)
    ensures NeedsDetailFetch(inv) && DetailAccepted(detail) ==> chosen == detail.body.data.value
  {
    if NeedsDetailFetch(inv) && DetailAccepted(detail) then detail.body.data.value else inv
  }

  /** `String(id ?? idAcceso ?? '')`: `??` skips only a missing value, not an empty string. */
  function FallbackCode(inv: Invitation): (code: string)
    ensures inv.id.Some? ==> code == IdToString(inv.id.value)
    ensures inv.id.None? ==> code == inv.idAcceso.GetOr("")
    ensures code == "" <==> inv.id == Some(StrId("")) || (inv.id.None? && !IsTruthyString(inv.idAcceso))
  {
    match inv.id
    case Some(id) => IdToString(id)
    case None => inv.idAcceso.GetOr("")
  }

  /** What the modal's image container shows. */
  datatype QrDisplay =
    | ServerImage(src: string)   // <img src={qrCode}>
    | Generated(value: string)   // <QRCodeSVG value={code}>
    | Unavailable                // "Código QR no disponible"

  /** The modal's rendering of the selected invitation. */
  function QrView(inv: Invitation): (v: QrDisplay)
    ensures v.ServerImage? <==> IsTruthyString(inv.qrCode)
    ensures v.ServerImage? ==> v.src == inv.qrCode.value
    ensures v.Generated? ==> v.value != ""
    ensures v.Generated? ==>
      (inv.id.Some? && v.value == IdToString(inv.id.value)) || (inv.id.None? && inv.idAcceso == Some(v.value))
    ensures v.Unavailable? <==>
      !IsTruthyString(inv.qrCode) && (inv.id == Some(StrId("")) || (inv.id.None? && !IsTruthyString(inv.idAcceso)))
  {
    if IsTruthyString(inv.qrCode) then ServerImage(inv.qrCode.value)
    else
      var code := FallbackCode(inv);
      if code != "" then Generated(code) else Unavailable
  }

  /** A server-supplied code is shown as it is, and no detail request is made for it. */
  lemma ServerCodeShownVerbatim(inv: Invitation, detail: Reply<DetailBody>)
    requires IsTruthyString(inv.qrCode)
    ensures !NeedsDetailFetch(inv)
    ensures QrView(QrInvitation(inv, detail)) == ServerImage(inv.qrCode.value)
  {
  }

  /** A numeric id always yields a code, even `0`, which is falsy but not skipped by `??`. */
  lemma NumericIdAlwaysRenders(inv: Invitation, n: int)
    requires !IsTruthyString(inv.qrCode) && inv.id == Some(NumId(n))
    ensures QrView(inv) == Generated(IntToString(n))
  {
  }

  /** Distinct numeric ids produce distinct generated codes. */
  lemma NumericCodesDistinct(inv1: Invitation, inv2: Invitation, m: int, n: int)
    requires !IsTruthyString(inv1.qrCode) && inv1.id == Some(NumId(m))
    requires !IsTruthyString(inv2.qrCode) && inv2.id == Some(NumId(n))
    requires m != n
    ensures QrView(inv1) != QrView(inv2)
  {
    if IntToString(m) == IntToString(n) {
      IntToStringInjective(m, n);
    }
  }

  /** An empty-string id is present for `??`, so it hides `idAcceso` and the code is unavailable. */
  lemma EmptyIdHidesAccessId(inv: Invitation)
    requires !IsTruthyString(inv.qrCode) && inv.id == Some(StrId(""))
    ensures QrView(inv) == Unavailable
  {
  }

  /** qrCode null and id "42": one detail fetch; if it is not adopted, the code is "42". */
  lemma FallbackToIdAfterFailedDetail(inv: Invitation, detail: Reply<DetailBody>)
    requires inv.qrCode.None? && inv.id == Some(StrId("42"))
    requires !DetailAccepted(detail)
    ensures NeedsDetailFetch(inv) && DetailPath(inv) == "42"
    ensures QrView(QrInvitation(inv, detail)) == Generated("42")
  {
  }

  /** qrCode and id null, idAcceso "ABC": no detail fetch, and the code is "ABC". */
  lemma FallbackToAccessId(inv: Invitation, detail: Reply<DetailBody>)
    requires inv.qrCode.None? && inv.id.None? && inv.idAcceso == Some("ABC")
    ensures !NeedsDetailFetch(inv)
    ensures QrView(QrInvitation(inv, detail)) == Generated("ABC")
  {
  }

  /** qrCode and id null, idAcceso empty: the modal says the code is unavailable. */
  lemma NoIdentifierNoCode(inv: Invitation, detail: Reply<DetailBody>)
    requires inv.qrCode.None? && inv.id.None? && inv.idAcceso == Some("")
    ensures QrView(QrInvitation(inv, detail)) == Unavailable
  {
  }
}

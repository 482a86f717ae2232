/**
 * How an invitation's status is presented: the CSS class, the Spanish label, the icon, and
 * which action buttons its card offers.
 */
module StatusPolicy {

  const ACTIVE: string := "ACTIVE"
  const PENDING: string := "PENDING"
  const EXPIRED: string := "EXPIRED"
  const CANCELLED: string := "CANCELLED"
  const USED: string := "USED"

  /** The five statuses the service assigns; any other string is shown in a degraded way. */
  predicate IsKnownStatus(status: string) {
    status == ACTIVE || status == PENDING || status == EXPIRED || status == CANCELLED || status == USED
  }

  /** ASCII lower-casing, the reference the CSS class names are checked against. */
  function LowerAscii(s: string): (r: string)
    ensures |r| == |s|
  {
    seq(|s|, i requires 0 <= i < |s| => if 'A' <= s[i] <= 'Z' then (s[i] as int + 32) as char else s[i])
  }

  /** `getStatusColor`: a known status gets `status-` and its lower-cased name; anything else `''`. */
  function StatusColor(status: string): (color: string)
    ensures color == "" <==> !IsKnownStatus(status)
    ensures IsKnownStatus(status) ==> color == "status-" + LowerAscii(status)
  {
    if status == ACTIVE then "status-active"
    else if status == PENDING then "status-pending"
    else if status == EXPIRED then "status-expired"
    else if status == CANCELLED then "status-cancelled"
    else if status == USED then "status-used"
    else ""
  }

  /** `getStatusLabel`: a Spanish label for a known status; an unknown status is shown raw. */
  function StatusLabel(status: string): (text: string)
    ensures !IsKnownStatus(status) ==> text == status
    ensures IsKnownStatus(status) ==> text != status && text != ""
  {
    if status == ACTIVE then "Activa"
    else if status == PENDING then "Pendiente"
    else if status == EXPIRED then "Expirada"
    else if status == CANCELLED then "Cancelada"
    else if status == USED then "Usada"
    else status
  }

  /** Two different known statuses never share a label. */
  lemma StatusLabelDistinguishesKnown(s1: string, s2: string)
    requires IsKnownStatus(s1) && IsKnownStatus(s2) && s1 != s2
    ensures StatusLabel(s1) != StatusLabel(s2)
  {
  }

  /** The ionicons the status badge uses. */
  datatype Icon = CheckmarkCircle | TimeOutline | BanOutline

  /** `getStatusIcon`: a ban for cancelled, a check mark for active and used, a clock otherwise. */
  function StatusIcon(status: string): (icon: Icon)
    ensures icon == BanOutline <==> status == CANCELLED
    ensures icon == CheckmarkCircle <==> status == ACTIVE || status == USED
    ensures icon == TimeOutline <==> !(status == CANCELLED || status == ACTIVE || status == USED)
  {
    if status == ACTIVE then CheckmarkCircle
    else if status == PENDING then TimeOutline
    else if status == EXPIRED then TimeOutline
    else if status == CANCELLED then BanOutline
    else if status == USED then CheckmarkCircle
    else TimeOutline
  }

  /** The buttons a card shows: "Ver QR", "Cancelar", the disabled "QR No Disponible", "Eliminar". */
  datatype CardActions = CardActions(showQr: bool, cancel: bool, qrUnavailable: bool, remove: bool)

  /** The action buttons the card offers for a status. */
  function ActionsFor(status: string): (a: CardActions)
    ensures a.showQr <==> status == ACTIVE || status == PENDING
    ensures a.cancel == a.showQr
    ensures a.qrUnavailable <==> status == EXPIRED || status == CANCELLED || status == USED
    ensures a.remove
    ensures !(a.showQr && a.qrUnavailable)
    ensures a.showQr || a.qrUnavailable <==> StatusColor(status) != ""
  {
    var live := status == ACTIVE || status == PENDING;
    var over := status == EXPIRED || status == CANCELLED || status == USED;
    CardActions(live, live, over, true)
  }

  /** An unknown status degrades: raw label, no CSS class, clock icon, and only the remove button. */
  lemma UnknownStatusDegrades(status: string)
    requires !IsKnownStatus(status)
    ensures StatusLabel(status) == status
    ensures StatusColor(status) == ""
    ensures StatusIcon(status) == TimeOutline
    ensures ActionsFor(status) == CardActions(false, false, false, true)
  {
  }
}

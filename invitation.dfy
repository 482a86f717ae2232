/**
 * The invitation record, the notifications the screen shows, the requests it sends to the
 * remote invitation service and the shapes of that service's replies.
 */
module InvitationData {
  import opened Wrappers
  import opened JsValues

  /** An invitation id is a string or a number on the wire. */
  datatype Id = StrId(text: string) | NumId(number: int)

  /** `String(id)`, also what a template literal `${id}` renders. */
  function IdToString(id: Id): (s: string)
    ensures id.StrId? ==> s == id.text
    ensures id.NumId? ==> s != "" && s == IntToString(id.number)
  {
    match id
    case StrId(t) => t
    case NumId(n) => IntToString(n)
  }

  /** One invitation as the service returns it; nullable fields are options. */
  datatype Invitation = Invitation(
    id: Option<Id>,
    idAcceso: Option<string>,
    nombreInvitado: string,
    rutInvitado: string,
    correoInvitado: string,
    telefonoInvitado: string,
    motivo: string,
    fechaInicio: string,
    fechaFin: string,
    idSala: Option<int>,
    sala: Option<string>,
    status: string,
    usageLimit: int,
    usedCount: int,
    qrCode: Option<string>,
    fechaCreacion: Option<string>,
    cancelledAt: Option<bool>)

  /** The colours `showToast` accepts. */
  datatype Color = Success | Warning | Danger

  /** One notification shown by `showToast(message, color)`. */
  datatype Toast = Toast(message: string, color: Color)

  /** A request sent to the invitation service. */
  datatype Request =
    | ListRequest(userId: string)                        // GET /invitations?userId=...
    | CancelRequest(id: Option<Id>, cancelledBy: string) // POST /invitations/{id}/cancel
    | DeleteRequest(id: Option<Id>)                      // DELETE /invitations/{id}
    | DetailRequest(path: string)                        // GET /invitations/{String(id)}

  /** The outcome of one awaited HTTP call: it threw, or it returned a body. */
  datatype Reply<B> = Thrown | Got(body: B)

  /** `response.data?.data` of the list call: an array of invitations or anything else. */
  datatype ListData = InvitationArray(items: seq<Invitation>) | NotAnArray

  /** `response.data` of the list call; absent fields model a missing `response.data`. */
  datatype ListBody = ListBody(success: Option<bool>, data: ListData)

  /** `response.data` of the cancel and delete calls. */
  datatype CommandBody = CommandBody(success: Option<bool>, message: Option<string>)

  /** `res.data` of the detail call; `data` is `None` when it is falsy. */
  datatype DetailBody = DetailBody(success: Option<bool>, data: Option<Invitation>)

  /** How many delete requests a request log holds. */
  function DeleteCount(rs: seq<Request>): (n: nat)
    ensures n <= |rs|
    ensures n == 0 <==> forall i :: 0 <= i < |rs| ==> !rs[i].DeleteRequest?
  {
    if rs == [] then 0 else (if rs[0].DeleteRequest? then 1 else 0) + DeleteCount(rs[1..])
  }

  lemma {:induction false} DeleteCountAppend(a: seq<Request>, b: seq<Request>)
    ensures DeleteCount(a + b) == DeleteCount(a) + DeleteCount(b)
    decreases |a|
  {
    if a != [] {
      assert (a + b)[1..] == a[1..] + b;
      DeleteCountAppend(a[1..], b);
    } else {
      assert a + b == b;
    }
  }
}

/**
 * What each reply from the service does to the list and to the notifications:
 * the specifications the controller's handlers are proved against.
 */
module Responses {
  import opened Wrappers
  import opened JsValues
  import opened InvitationData

  const LOAD_ERROR: string := "Error al cargar invitaciones"

  /** The list after a fetch and the notifications the fetch emits. */
  datatype ListUpdate = ListUpdate(list: seq<Invitation>, toasts: seq<Toast>)

  /** A list reply that neither carries an array nor claims success, or a call that threw. */
  predicate FetchFailed(reply: Reply<ListBody>) {
    reply.Thrown? || (!reply.body.data.InvitationArray? && !IsTruthyFlag(reply.body.success))
  }

  /** The effect of `fetchInvitations` with the given reply, starting from the list `current`. */
  function FetchOutcome(current: seq<Invitation>, reply: Reply<ListBody>): (u: ListUpdate)
    ensures reply.Got? && reply.body.data.InvitationArray? ==> u.list == reply.body.data.items
    ensures u.list == current || (reply.Got? && (u.list == [] || reply.body.data == InvitationArray(u.list)))
    ensures reply.Got? && !reply.body.data.InvitationArray? && IsTruthyFlag(reply.body.success) ==> u.list == []
    ensures FetchFailed(reply) ==> u.list == current && u.toasts == [Toast(LOAD_ERROR, Danger)]
    ensures !FetchFailed(reply) ==> u.toasts == []
  {
    match reply
    case Thrown => ListUpdate(current, [Toast(LOAD_ERROR, Danger)])
    case Got(body) =>
      if body.data.InvitationArray? then ListUpdate(body.data.items, [])
      else if !IsTruthyFlag(body.success) then ListUpdate(current, [Toast(LOAD_ERROR, Danger)])
      else ListUpdate([], [])
  }

  /** A fetch that does not fail replaces the list wholesale: the old list does not matter. */
  lemma FetchReplacesWholesale(c1: seq<Invitation>, c2: seq<Invitation>, reply: Reply<ListBody>)
    requires !FetchFailed(reply)
    ensures FetchOutcome(c1, reply).list == FetchOutcome(c2, reply).list
  {
  }

  /** Of two fetches applied in turn, the later one decides the list unless it failed. */
  lemma LastFetchWins(current: seq<Invitation>, first: Reply<ListBody>, second: Reply<ListBody>)
    ensures !FetchFailed(second) ==>
      FetchOutcome(FetchOutcome(current, first).list, second).list == FetchOutcome(current, second).list
    ensures FetchFailed(second) ==>
      FetchOutcome(FetchOutcome(current, first).list, second).list == FetchOutcome(current, first).list
  {
  }

  /** The three texts of one command: server-confirmed success, rejection without a message, exception. */
  datatype CommandTexts = CommandTexts(done: string, rejected: string, failed: string)

  const CANCEL_TEXTS: CommandTexts :=
    CommandTexts("Invitación cancelada exitosamente", "Error al cancelar", "Error al cancelar invitación")

  const DELETE_TEXTS: CommandTexts :=
    CommandTexts("Invitación eliminada", "Error al eliminar", "Error al eliminar invitación")

  /** `response.data?.success` is truthy. */
  predicate CommandSucceeded(reply: Reply<CommandBody>) {
    reply.Got? && IsTruthyFlag(reply.body.success)
  }

  /** The one notification a cancel or delete emits. */
  function CommandToast(texts: CommandTexts, reply: Reply<CommandBody>): (t: Toast)
    ensures t.color == Success <==> CommandSucceeded(reply)
    ensures t.color != Warning
    ensures CommandSucceeded(reply) ==> t.message == texts.done
    ensures reply.Got? && !CommandSucceeded(reply) && IsTruthyString(reply.body.message) ==>
      t.message == reply.body.message.value
    ensures reply.Got? && !CommandSucceeded(reply) && !IsTruthyString(reply.body.message) ==>
      t.message == texts.rejected
    ensures reply.Thrown? ==> t.message == texts.failed
  {
    match reply
    case Thrown => Toast(texts.failed, Danger)
    case Got(body) =>
      if IsTruthyFlag(body.success) then Toast(texts.done, Success)
      else Toast(OrElse(body.message, texts.rejected), Danger)
  }

  /** With the screen's own texts, every command notification has something to say. */
  lemma CommandToastNeverBlank(reply: Reply<CommandBody>)
    ensures CommandToast(CANCEL_TEXTS, reply).message != ""
    ensures CommandToast(DELETE_TEXTS, reply).message != ""
  {
  }

  /** A server that rejects a cancel with "already used" has that message shown as a danger toast. */
  lemma CancelRejectedWithMessage(reply: Reply<CommandBody>)
    requires reply == Got(CommandBody(Some(false), Some("already used")))
    ensures CommandToast(CANCEL_TEXTS, reply) == Toast("already used", Danger)
  {
  }
}

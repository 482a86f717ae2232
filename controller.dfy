/**
 * The invitation-list screen's state and its event handlers. Each handler takes the replies of
 * the HTTP calls it makes as inputs and records what it sends and what it notifies.
 */
module Controller {
  import opened Wrappers
  import opened JsValues
  import opened InvitationData
  import opened UserId
  import opened QrCode
  import opened Responses

  class InvitationList {
    var loading: bool
    var invitations: seq<Invitation>
    var selectedInvitation: Option<Invitation>
    var showQRModal: bool
    var deleteConfirmInvitation: Option<Invitation>
    /** Every notification shown so far, oldest first. */
    var toasts: seq<Toast>
    /** Every request sent to the invitation service so far, oldest first. */
    var requests: seq<Request>

    /** The screen as first rendered, before the mount effect fetches the list. */
    constructor ()
      ensures !loading && invitations == [] && !showQRModal
      ensures selectedInvitation.None? && deleteConfirmInvitation.None?
      ensures toasts == [] && requests == []
    {
      loading := false;
      invitations := [];
      selectedInvitation := None;
      showQRModal := false;
      deleteConfirmInvitation := None;
      toasts := [];
      requests := [];
    }

    /** `fetchInvitations`: one list request for the normalised user, then the reply decides the list. */
    method FetchInvitations(user: Option<string>, reply: Reply<ListBody>)
      modifies this
      ensures requests == old(requests) + [ListRequest(NormalizeUser(user))]
      ensures invitations == FetchOutcome(old(invitations), reply).list
      ensures toasts == old(toasts) + FetchOutcome(old(invitations), reply).toasts
      ensures !loading
      ensures selectedInvitation == old(selectedInvitation) && showQRModal == old(showQRModal)
      ensures deleteConfirmInvitation == old(deleteConfirmInvitation)
    {
      loading := true;
      var normalizedUser := NormalizeUser(user);
      requests := requests + [ListRequest(normalizedUser)];
      match reply {
        case Thrown =>
          toasts := toasts + [Toast(LOAD_ERROR, Danger)];
        case Got(body) =>
          if body.data.InvitationArray? {
            invitations := body.data.items;
          } else if !IsTruthyFlag(body.success) {
            toasts := toasts + [Toast(LOAD_ERROR, Danger)];
          } else {
            invitations := [];
          }
      }
      loading := false;
    }

    /** What cancel and delete do with the command's reply: notify, and refresh the list on success. */
    method ReportCommand(texts: CommandTexts, user: Option<string>, reply: Reply<CommandBody>, refresh: Reply<ListBody>)
      modifies this
      ensures toasts == old(toasts) + [CommandToast(texts, reply)] +
        (if CommandSucceeded(reply) then FetchOutcome(old(invitations), refresh).toasts else [])
      ensures requests == old(requests) + (if CommandSucceeded(reply) then [ListRequest(NormalizeUser(user))] else [])
      ensures invitations == if CommandSucceeded(reply) then FetchOutcome(old(invitations), refresh).list else old(invitations)
      ensures loading == (old(loading) && !CommandSucceeded(reply))
      ensures selectedInvitation == old(selectedInvitation) && showQRModal == old(showQRModal)
      ensures deleteConfirmInvitation == old(deleteConfirmInvitation)
    {
      match reply {
        case Thrown =>
          toasts := toasts + [Toast(texts.failed, Danger)];
        case Got(body) =>
          if IsTruthyFlag(body.success) {
            toasts := toasts + [Toast(texts.done, Success)];
            FetchInvitations(user, refresh);
          } else {
            toasts := toasts + [Toast(OrElse(body.message, texts.rejected), Danger)];
          }
      }
    }

    /** `handleCancelInvitation`: one cancel request attributed to the normalised user. */
    method HandleCancelInvitation(user: Option<string>, invitation: Invitation,
                                  reply: Reply<CommandBody>, refresh: Reply<ListBody>)
      modifies this
      ensures requests == old(requests) + [CancelRequest(invitation.id, NormalizeUser(user))] +
        (if CommandSucceeded(reply) then [ListRequest(NormalizeUser(user))] else [])
      ensures toasts == old(toasts) + [CommandToast(CANCEL_TEXTS, reply)] +
        (if CommandSucceeded(reply) then FetchOutcome(old(invitations), refresh).toasts else [])
      ensures invitations == if CommandSucceeded(reply) then FetchOutcome(old(invitations), refresh).list else old(invitations)
      ensures !loading
      ensures selectedInvitation == old(selectedInvitation) && showQRModal == old(showQRModal)
      ensures deleteConfirmInvitation == old(deleteConfirmInvitation)
    {
      loading := true;
      var normalizedUser := NormalizeUser(user);
      requests := requests + [CancelRequest(invitation.id, normalizedUser)];
      ReportCommand(CANCEL_TEXTS, user, reply, refresh);
      loading := false;
    }

    /** `handleRemoveClick`: stage the invitation for confirmation; nothing is sent. */
    method HandleRemoveClick(invitation: Invitation)
      modifies this
      ensures deleteConfirmInvitation == Some(invitation) && RemovePromptOpen()
      ensures requests == old(requests) && toasts == old(toasts) && invitations == old(invitations)
      ensures loading == old(loading) && selectedInvitation == old(selectedInvitation) && showQRModal == old(showQRModal)
    {
      deleteConfirmInvitation := Some(invitation);
    }

    /** The confirmation prompt is dismissed: the staged invitation is dropped, nothing is sent. */
    method DismissRemovePrompt()
      modifies this
      ensures deleteConfirmInvitation.None? && !RemovePromptOpen()
      ensures requests == old(requests) && toasts == old(toasts) && invitations == old(invitations)
      ensures loading == old(loading) && selectedInvitation == old(selectedInvitation) && showQRModal == old(showQRModal)
    {
      deleteConfirmInvitation := None;
    }

    /**
     * `handleRemoveConfirm`: the staged slot is cleared first; a delete is sent only if something
     * was staged, and with nothing staged no other state changes at all.
     */
    method HandleRemoveConfirm(user: Option<string>, reply: Reply<CommandBody>, refresh: Reply<ListBody>)
      modifies this
      ensures deleteConfirmInvitation.None? && !RemovePromptOpen()
      ensures old(deleteConfirmInvitation).None? ==>
        requests == old(requests) && toasts == old(toasts) && invitations == old(invitations) && loading == old(loading)
      ensures old(deleteConfirmInvitation).Some? ==>
        && requests == old(requests) + [DeleteRequest(old(deleteConfirmInvitation).value.id)] +
             (if CommandSucceeded(reply) then [ListRequest(NormalizeUser(user))] else [])
        && toasts == old(toasts) + [CommandToast(DELETE_TEXTS, reply)] +
             (if CommandSucceeded(reply) then FetchOutcome(old(invitations), refresh).toasts else [])
        && invitations == (if CommandSucceeded(reply) then FetchOutcome(old(invitations), refresh).list else old(invitations))
        && !loading
      ensures selectedInvitation == old(selectedInvitation) && showQRModal == old(showQRModal)
    {
      var invitation := deleteConfirmInvitation;
      deleteConfirmInvitation := None;
      if invitation.None? {
        return;
      }
      loading := true;
      requests := requests + [DeleteRequest(invitation.value.id)];
      ReportCommand(DELETE_TEXTS, user, reply, refresh);
      loading := false;
    }

    /**
     * `handleShowQR`: at most one detail request, only for an item without a code but with an id;
     * its failures are swallowed, and the modal opens on the chosen invitation.
     */
    method HandleShowQR(invitation: Invitation, detail: Reply<DetailBody>)
      modifies this
      ensures requests == old(requests) + (if NeedsDetailFetch(invitation) then [DetailRequest(DetailPath(invitation))] else [])
      ensures selectedInvitation == Some(QrInvitation(invitation, detail))
      ensures showQRModal
      ensures ModalContent() == Some(QrView(QrInvitation(invitation, detail)))
      ensures toasts == old(toasts) && invitations == old(invitations) && loading == old(loading)
      ensures deleteConfirmInvitation == old(deleteConfirmInvitation)
    {
      var inv := invitation;
      if !IsTruthyString(invitation.qrCode) && invitation.id.Some? {
        requests := requests + [DetailRequest(IdToString(invitation.id.value))];
        match detail {
          case Thrown =>
          case Got(body) =>
            if IsTruthyFlag(body.success) && body.data.Some? {
              inv := body.data.value;
            }
        }
      }
      selectedInvitation := Some(inv);
      showQRModal := true;
    }

    /** The modal's close button or its dismissal. */
    method CloseQRModal()
      modifies this
      ensures !showQRModal && ModalContent().None?
      ensures selectedInvitation == old(selectedInvitation) && requests == old(requests) && toasts == old(toasts)
      ensures invitations == old(invitations) && loading == old(loading)
      ensures deleteConfirmInvitation == old(deleteConfirmInvitation)
    {
      showQRModal := false;
    }

    /** What the QR modal shows: nothing while it is closed or nothing is selected. */
    function ModalContent(): (content: Option<QrDisplay>)
      reads this
      ensures content.Some? <==> showQRModal && selectedInvitation.Some?
      ensures content.Some? ==> content.value == QrView(selectedInvitation.value)
    {
      if showQRModal && selectedInvitation.Some? then Some(QrView(selectedInvitation.value)) else None
    }

    /** The confirmation prompt is open exactly while an invitation is staged. */
    function RemovePromptOpen(): (open: bool)
      reads this
      ensures open <==> deleteConfirmInvitation.Some?
    {
      deleteConfirmInvitation.Some?
    }
  }

  /** Two confirmations without a click in between send at most one delete request. */
  method ConfirmTwice(screen: InvitationList, user: Option<string>,
                      reply1: Reply<CommandBody>, refresh1: Reply<ListBody>,
                      reply2: Reply<CommandBody>, refresh2: Reply<ListBody>)
    modifies screen
    ensures DeleteCount(screen.requests) <= DeleteCount(old(screen.requests)) + 1
    ensures old(screen.deleteConfirmInvitation).None? ==> screen.requests == old(screen.requests)
  {
    ghost var before := screen.requests;
    screen.HandleRemoveConfirm(user, reply1, refresh1);
    ghost var middle := screen.requests;
    assert DeleteCount(middle) <= DeleteCount(before) + 1 by {
      var added := middle[|before|..];
      assert middle == before + added;
      DeleteCountAppend(before, added);
    }
    screen.HandleRemoveConfirm(user, reply2, refresh2);
  }
}

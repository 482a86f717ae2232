/**
 * End-to-end runs of the screen: a fresh `InvitationList`, a sequence of handler calls with
 * given replies, and what the user sees and the service receives.
 */
module Scenarios {
  import opened Wrappers
  import opened InvitationData
  import opened UserId
  import opened StatusPolicy
  import opened Responses
  import opened Controller

  /** A list item with the given id, status and code, and blank display fields. */
  function Item(id: Option<Id>, status: string, qrCode: Option<string>): (inv: Invitation)
    ensures inv.id == id && inv.status == status && inv.qrCode == qrCode
  {
    Invitation(id, None, "", "", "", "", "", "", "", None, None, status, 0, 0, qrCode, None, None)
  }

  /** The list [{id 1, ACTIVE}, {id 2, USED}] offers cancel and QR for the first, only the disabled QR for the second, remove for both. */
  method ListedActions(user: Option<string>) returns (shown: seq<Invitation>, actions: seq<CardActions>)
    ensures |shown| == 2 && shown[0].id == Some(NumId(1)) && shown[1].id == Some(NumId(2))
    ensures actions == [CardActions(true, true, false, true), CardActions(false, false, true, true)]
  {
    var screen := new InvitationList();
    var one, two := Item(Some(NumId(1)), ACTIVE, None), Item(Some(NumId(2)), USED, None);
    screen.FetchInvitations(user, Got(ListBody(Some(true), InvitationArray([one, two]))));
    shown := screen.invitations;
    actions := [ActionsFor(shown[0].status), ActionsFor(shown[1].status)];
  }

  /** A cancel the server rejects with "already used" shows that message and leaves the list as it was. */
  method CancelRejected(user: Option<string>) returns (notified: seq<Toast>, shown: seq<Invitation>)
    ensures notified == [Toast("already used", Danger)]
    ensures |shown| == 2 && shown[0].status == ACTIVE
  {
    var screen := new InvitationList();
    var one, two := Item(Some(NumId(1)), ACTIVE, None), Item(Some(NumId(2)), USED, None);
    screen.FetchInvitations(user, Got(ListBody(Some(true), InvitationArray([one, two]))));
    screen.HandleCancelInvitation(user, one, Got(CommandBody(Some(false), Some("already used"))), Thrown);
    notified := screen.toasts;
    shown := screen.invitations;
  }

  /** Click then confirm with a successful delete: a success notification and a delete followed by a refresh. */
  method RemoveConfirmed(user: Option<string>, inv: Invitation, refresh: Reply<ListBody>)
    returns (notified: seq<Toast>, sent: seq<Request>)
    ensures |notified| >= 1 && notified[0] == Toast("Invitación eliminada", Success)
    ensures sent == [DeleteRequest(inv.id), ListRequest(NormalizeUser(user))]
  {
    var screen := new InvitationList();
    screen.HandleRemoveClick(inv);
    screen.HandleRemoveConfirm(user, Got(CommandBody(Some(true), None)), refresh);
    notified := screen.toasts;
    sent := screen.requests;
  }

  /** Click, dismiss the prompt, then a stray confirmation: no request at all. */
  method RemoveDismissed(user: Option<string>, inv: Invitation, reply: Reply<CommandBody>, refresh: Reply<ListBody>)
    returns (sent: seq<Request>, notified: seq<Toast>)
    ensures sent == [] && notified == []
  {
    var screen := new InvitationList();
    screen.HandleRemoveClick(inv);
    screen.DismissRemovePrompt();
    screen.HandleRemoveConfirm(user, reply, refresh);
    sent := screen.requests;
    notified := screen.toasts;
  }
}

/** The relay router's decisions: which handler an inbound message goes to,
    whom an admin reply is addressed to, and which subscription button the
    main menu offers. */
module Routing {
  import opened Telegram
  import opened MapRange

  const CmdSubscribers: string := "/subscribers"
  const CmdToggleMailing: string := "/toggle_mailing"
  const CmdStop: string := "/stop"
  const CmdStart: string := "/start"

  /** The handler `handleMessage` hands a message to. */
  datatype Action =
    | ListSubscribers   // admin: `/subscribers`
    | ToggleMailing     // admin: `/toggle_mailing`
    | AdminMedia        // admin: media while the mailing gate is open
    | AdminReply        // admin: anything else, relayed to a user
    | EndChat           // user in a chat with the manager: `/stop`
    | ShowMenu          // user: `/start`
    | ForwardToAdmin    // user in a chat with the manager: anything else
    | MenuHint          // user with no chat open: anything but `/start`

  /** A message that carries a photo, a document or an album id. */
  function HasMedia(m: Message): (has: bool)
    ensures !has <==> |m.photo| == 0 && m.document.None? && m.mediaGroupId == ""
  {
    |m.photo| > 0 || m.document.Some? || m.mediaGroupId != ""
  }

  /** The dispatch of main.go:114-179. `chatActive` is the session flag read for
      the sender; `mailingActive` is the mailing gate. Each action is given by
      the exact condition under which it is chosen, so the order of the admin's
      checks and the user's checks can be read off the clauses. */
  function Route(m: Message, adminId: ChatId, chatActive: bool, mailingActive: bool): (a: Action)
    ensures a == ListSubscribers <==> m.chatId == adminId && m.text == CmdSubscribers
    ensures a == ToggleMailing <==> m.chatId == adminId && m.text == CmdToggleMailing
    ensures a == AdminMedia <==>
      m.chatId == adminId && m.text != CmdSubscribers && m.text != CmdToggleMailing && HasMedia(m) && mailingActive
    ensures a == AdminReply <==>
      m.chatId == adminId && m.text != CmdSubscribers && m.text != CmdToggleMailing && !(HasMedia(m) && mailingActive)
    ensures a == EndChat <==> m.chatId != adminId && chatActive && m.text == CmdStop
    ensures a == ShowMenu <==> m.chatId != adminId && m.text == CmdStart
    ensures a == ForwardToAdmin <==> m.chatId != adminId && chatActive && m.text != CmdStop && m.text != CmdStart
    ensures a == MenuHint <==> m.chatId != adminId && !chatActive && m.text != CmdStart
  {
    if m.chatId == adminId then
      if m.text == CmdSubscribers then ListSubscribers
      else if m.text == CmdToggleMailing then ToggleMailing
      else if HasMedia(m) && mailingActive then AdminMedia
      else AdminReply
    else if m.text == CmdStop && chatActive then EndChat
    else if chatActive then
      if m.text == CmdStart then ShowMenu else ForwardToAdmin
    else if m.text == CmdStart then ShowMenu
    else MenuHint
  }

  /** The target of an admin's reply (main.go:427-451): the original sender of
      the forwarded message replied to, if known; otherwise any one user the
      session map binds to the admin's chat (Go's map order decides which), or
      nobody. */
  method ResolveReplyTarget(m: Message, userToAdmin: map<ChatId, ChatId>) returns (target: Option<ChatId>)
    ensures m.replyForwardFrom.Some? ==> target == m.replyForwardFrom
    ensures m.replyForwardFrom.None? && target.Some? ==>
      target.value in userToAdmin && userToAdmin[target.value] == m.chatId
    ensures m.replyForwardFrom.None? && target.None? ==>
      forall u :: u in userToAdmin ==> userToAdmin[u] != m.chatId
  {
    if m.replyForwardFrom.Some? {
      return m.replyForwardFrom;
    }
    target := None;
    var pending := userToAdmin.Keys;
    while pending != {}
      invariant pending <= userToAdmin.Keys
      invariant forall u :: u in userToAdmin.Keys - pending ==> userToAdmin[u] != m.chatId
      decreases pending
    {
      var u := NextKey(pending);
      if userToAdmin[u] == m.chatId {
        return Some(u);
      }
      pending := pending - {u};
    }
  }

  /** The callback data of the main menu's subscription button (main.go:540-552):
      a subscriber is offered "unsubscribe", anyone else "subscribe". */
  function SubscribeButtonData<V>(subscribers: map<ChatId, V>, chatId: ChatId): (data: string)
    ensures data == "unsubscribe" <==> chatId in subscribers
    ensures data == "subscribe" <==> chatId !in subscribers
  {
    if chatId in subscribers then "unsubscribe" else "subscribe"
  }
}

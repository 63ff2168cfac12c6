/** The bot's in-memory state and the handlers that change it. The five
    process-wide registries of main.go:17-42 are the fields of one `Bot`; every
    handler is one atomic step (the mutexes only serialise these steps). The
    Telegram client is the `Transport` oracle; menus, notices and reports are
    text the model does not produce, except that fan-outs return their counts. */
module Engine {
  import opened Telegram
  import opened MapRange
  import opened Broadcast
  import opened MediaGroups
  import opened Routing

  /** What the registry keeps about a subscriber (main.go:44-47). */
  datatype SubscriberInfo = SubscriberInfo(username: string, fullName: string)

  /** The entry a subscription records for the user who pressed the button. */
  function InfoOf(u: User): SubscriberInfo
  {
    SubscriberInfo(u.userName, u.firstName + " " + u.lastName)
  }

  /** What `handleAdminMedia` does with one admin message (main.go:181-207):
      an album item is filed and waits for its settle check; anything else is
      broadcast at once as a single medium. */
  ghost predicate AdminMediaHandled(
    groupsBefore: Groups, groupsAfter: Groups,
    subsBefore: map<ChatId, SubscriberInfo>, subsAfter: map<ChatId, SubscriberInfo>,
    m: Message, t: Transport, report: Option<Report>, sends: seq<Delivery>)
  {
    if m.mediaGroupId != "" then
      groupsAfter == Arrive(groupsBefore, m) && subsAfter == subsBefore && report == None && sends == []
    else
      groupsAfter == groupsBefore && report.Some? && SingleFanout(subsBefore, subsAfter, m, t, report.value, sends)
  }

  /** Where an admin reply goes (main.go:429-450): one text to the original
      sender of the forwarded message replied to; else one text to some user
      bound to the admin's chat; else nothing. */
  ghost predicate ReplyAddressed(m: Message, userToAdmin: map<ChatId, ChatId>, sends: seq<Delivery>)
  {
    if m.replyForwardFrom.Some? then
      sends == [Delivery(m.replyForwardFrom.value, SendText(m.text))]
    else if exists u :: u in userToAdmin && userToAdmin[u] == m.chatId then
      |sends| == 1 && sends[0].content == SendText(m.text) &&
      sends[0].to in userToAdmin && userToAdmin[sends[0].to] == m.chatId
    else
      sends == []
  }

  /** Two photos of one new album: once both have arrived and the second is
      more than half a second old, the settle check finds the group ready, holding
      the two in arrival order, and the album it broadcasts has two items; with
      only the first arrived the group is never ready. */
  lemma TwoPhotoAlbumSettles(groups: Groups, a: Message, b: Message, now: int)
    requires a.mediaGroupId == b.mediaGroupId && a.mediaGroupId !in groups
    requires |a.photo| > 0 && |b.photo| > 0
    requires SentAtMs(b) < now - SettleQuietMs
    ensures !ReadyToSettle(ArriveAll(groups, [a]), a.mediaGroupId, now)
    ensures ReadyToSettle(ArriveAll(groups, [a, b]), a.mediaGroupId, now)
    ensures ArriveAll(groups, [a, b])[a.mediaGroupId] == [a, b]
    ensures |Album([a, b], AlbumCaption([a, b]))| == 2
  {
    assert ArriveAll(groups, [a]) == Arrive(groups, a);
    assert ArriveAll(groups, [a, b]) == Arrive(Arrive(groups, a), b);
    var g := a.mediaGroupId;
    ArrivalOrderKept(groups, [a], g);
    ArrivalOrderKept(groups, [a, b], g);
    assert [a, b][..1] == [a];
    assert [a][..0] == [];
    assert InGroup([a, b], g) == [a, b];
    TwoPhotoAlbum(a, b);
  }

  /** Admin media that is not part of an album always has something to send:
      `handleMessage` routes an ungrouped message to the single-medium fan-out
      only when it carries a photo or a document. */
  lemma UngroupedMediaHasContent(m: Message)
    requires HasMedia(m) && m.mediaGroupId == ""
    ensures SingleContent(m).Some?
  {
  }

  class Bot {
    /** The configured admin chat; every handler of main.go receives this one value. */
    const adminId: ChatId
    /** `subscribers.users`: the subscriber registry. */
    var subscribers: map<ChatId, SubscriberInfo>
    /** `activeChats.users`: the users with an open chat with the manager. */
    var activeChats: map<ChatId, bool>
    /** `userToAdmin.chats`: the admin each open chat is bound to. */
    var userToAdmin: map<ChatId, ChatId>
    /** `mailingStatus.active`: the mailing gate. */
    var mailingActive: bool
    /** `mediaGroups.groups`: the albums still being collected. */
    var mediaGroups: Groups

    /** The invariant every handler keeps: the two session maps have the same
        users, every open chat is flagged true and bound to the admin, and every
        pending album is non-empty and holds only its own items. */
    ghost predicate Valid()
      reads this
    {
      && activeChats.Keys == userToAdmin.Keys
      && (forall u :: u in activeChats ==> activeChats[u])
      && (forall u :: u in userToAdmin ==> userToAdmin[u] == adminId)
      && (forall g :: g in mediaGroups ==> g != "" && |mediaGroups[g]| > 0)
      && (forall g, i :: g in mediaGroups && 0 <= i < |mediaGroups[g]| ==> mediaGroups[g][i].mediaGroupId == g)
    }

    /** The state at start-up: empty registries and the mailing gate open. */
    constructor (adminId: ChatId)
      ensures Valid()
      ensures this.adminId == adminId
      ensures subscribers == map[] && activeChats == map[] && userToAdmin == map[]
      ensures mailingActive
      ensures mediaGroups == map[]
    {
      this.adminId := adminId;
      subscribers := map[];
      activeChats := map[];
      userToAdmin := map[];
      mailingActive := true;
      mediaGroups := map[];
    }

    /** Whether `id` has an open chat with the manager; a missing entry reads as false. */
    function SessionActive(id: ChatId): (active: bool)
      reads this
      ensures id !in activeChats ==> !active
      ensures id in activeChats ==> (active <==> activeChats[id])
    {
      id in activeChats && activeChats[id]
    }

    /** In a valid state a chat is open exactly when it is bound to the admin. */
    lemma SessionActiveIffBound(id: ChatId)
      requires Valid()
      ensures SessionActive(id) <==> id in userToAdmin && userToAdmin[id] == adminId
    {
    }

    // ----- Subscriber registry -----

    /** The "subscribe" button (main.go:464-475). */
    method Subscribe(chatId: ChatId, from: User) returns (isNew: bool)
      requires Valid()
      modifies this`subscribers
      ensures Valid()
      ensures isNew <==> chatId !in old(subscribers)
      ensures subscribers == old(subscribers)[chatId := InfoOf(from)]
      ensures SubscribeButtonData(subscribers, chatId) == "unsubscribe"
    {
      isNew := false;
      if chatId !in subscribers {
        isNew := true;
      }
      subscribers := subscribers[chatId := InfoOf(from)];
    }

    /** The "unsubscribe" button (main.go:491-493). */
    method Unsubscribe(chatId: ChatId)
      requires Valid()
      modifies this`subscribers
      ensures Valid()
      ensures subscribers == old(subscribers) - {chatId}
      ensures chatId !in old(subscribers) ==> subscribers == old(subscribers)
      ensures SubscribeButtonData(subscribers, chatId) == "subscribe"
    {
      subscribers := subscribers - {chatId};
    }

    // ----- Session registry -----

    /** The "contact_manager" button (main.go:502-508): open, or reopen, a chat. */
    method ContactManager(chatId: ChatId)
      requires Valid()
      modifies this`activeChats, this`userToAdmin
      ensures Valid()
      ensures activeChats == old(activeChats)[chatId := true]
      ensures userToAdmin == old(userToAdmin)[chatId := adminId]
      ensures SessionActive(chatId)
    {
      activeChats := activeChats[chatId := true];
      userToAdmin := userToAdmin[chatId := adminId];
    }

    /** `endChatWithManager` (main.go:405-412): close the chat. */
    method EndChatWithManager(userId: ChatId)
      requires Valid()
      modifies this`activeChats, this`userToAdmin
      ensures Valid()
      ensures activeChats == old(activeChats) - {userId}
      ensures userToAdmin == old(userToAdmin) - {userId}
      ensures !SessionActive(userId)
    {
      activeChats := activeChats - {userId};
      userToAdmin := userToAdmin - {userId};
    }

    /** `handleCallback` (main.go:453-536): dispatch on the button's data;
        `isNew` says whether the admin is told of a new subscriber. */
    method HandleCallback(q: CallbackQuery) returns (isNew: bool)
      requires Valid()
      modifies this`subscribers, this`activeChats, this`userToAdmin
      ensures Valid()
      ensures q.data == "subscribe" ==>
        && (isNew <==> q.chatId !in old(subscribers))
        && subscribers == old(subscribers)[q.chatId := InfoOf(q.from)]
        && activeChats == old(activeChats) && userToAdmin == old(userToAdmin)
      ensures q.data == "unsubscribe" ==>
        && subscribers == old(subscribers) - {q.chatId}
        && activeChats == old(activeChats) && userToAdmin == old(userToAdmin)
      ensures q.data == "contact_manager" ==>
        && activeChats == old(activeChats)[q.chatId := true]
        && userToAdmin == old(userToAdmin)[q.chatId := adminId]
        && subscribers == old(subscribers)
      ensures q.data == "end_chat" ==>
        && activeChats == old(activeChats) - {q.chatId}
        && userToAdmin == old(userToAdmin) - {q.chatId}
        && subscribers == old(subscribers)
      ensures q.data != "subscribe" && q.data != "unsubscribe" && q.data != "contact_manager" && q.data != "end_chat" ==>
        subscribers == old(subscribers) && activeChats == old(activeChats) && userToAdmin == old(userToAdmin)
      ensures q.data != "subscribe" ==> !isNew
    {
      isNew := false;
      if q.data == "subscribe" {
        isNew := Subscribe(q.chatId, q.from);
      } else if q.data == "unsubscribe" {
        Unsubscribe(q.chatId);
      } else if q.data == "contact_manager" {
        ContactManager(q.chatId);
      } else if q.data == "end_chat" {
        EndChatWithManager(q.chatId);
      }
    }

    // ----- Mailing gate -----

    /** `toggleMailingStatus` (main.go:324-328): flip the gate and report its new state. */
    method ToggleMailingStatus() returns (status: bool)
      requires Valid()
      modifies this`mailingActive
      ensures Valid()
      ensures mailingActive == !old(mailingActive)
      ensures status == mailingActive
    {
      mailingActive := !mailingActive;
      status := mailingActive;
    }

    /** `isMailingActive` (main.go:341-345): read the gate. */
    method IsMailingActive() returns (active: bool)
      ensures active == mailingActive
    {
      active := mailingActive;
    }

    // ----- Broadcast fan-out -----

    /** `sendToSubscribers` (main.go:347-393): one send per subscriber, counting
        outcomes and deleting those that blocked the bot. */
    method SendToSubscribers(m: Message, t: Transport) returns (report: Report, sends: seq<Delivery>)
      modifies this`subscribers
      ensures SingleFanout(old(subscribers), subscribers, m, t, report, sends)
    {
      sends := [];
      if |subscribers| == 0 {
        report := NoSubscribers;
        return;
      }
      var caption := SingleCaption(m);
      var successCount: nat, failCount: nat := 0, 0;
      ghost var before := subscribers;
      ghost var done: set<ChatId> := {};
      var pending := subscribers.Keys;
      FannedOutStart(before, t, SingleContent(m));
      while pending != {}
        invariant pending == before.Keys - done
        invariant FannedOut(before, subscribers, done, t, SingleContent(m), successCount, failCount, sends)
        decreases pending
      {
        var userId := NextKey(pending);
        FannedOutStep(before, subscribers, done, t, SingleContent(m), successCount, failCount, sends, userId);
        var outcome := Ok;
        if |m.photo| > 0 {
          var photo := m.photo[|m.photo| - 1];
          var photoMsg := SendPhoto(photo.fileId, caption);
          sends := sends + [Delivery(userId, photoMsg)];
          outcome := t(userId, photoMsg);
        } else if m.document.Some? {
          var docMsg := SendDocument(m.document.value.fileId, caption);
          sends := sends + [Delivery(userId, docMsg)];
          outcome := t(userId, docMsg);
        }
        if outcome != Ok {
          failCount := failCount + 1;
          if outcome == Blocked {
            subscribers := subscribers - {userId};
          }
        } else {
          successCount := successCount + 1;
        }
        done := done + {userId};
        pending := pending - {userId};
      }
      assert done == before.Keys;
      report := Completed(successCount, failCount);
    }

    /** `sendMediaGroupToSubscribers` (main.go:218-278): the album fan-out. The
        album is rebuilt for every recipient, as in the source. */
    method SendMediaGroupToSubscribers(messages: seq<Message>, t: Transport) returns (report: Report, sends: seq<Delivery>)
      modifies this`subscribers
      ensures AlbumFanout(old(subscribers), subscribers, messages, t, report, sends)
    {
      sends := [];
      if |subscribers| == 0 {
        report := NoSubscribers;
        return;
      }
      var caption := ChooseAlbumCaption(messages);
      var successCount: nat, failCount: nat := 0, 0;
      ghost var before := subscribers;
      ghost var items := Album(messages, caption);
      ghost var done: set<ChatId> := {};
      var pending := subscribers.Keys;
      FannedOutStart(before, t, Some(SendAlbum(items)));
      while pending != {}
        invariant pending == before.Keys - done && done <= before.Keys
        invariant items == [] ==> successCount == 0 && failCount == 0 && sends == [] && subscribers == before
        invariant items != [] ==>
          FannedOut(before, subscribers, done, t, Some(SendAlbum(items)), successCount, failCount, sends)
        decreases pending
      {
        var userId := NextKey(pending);
        var mediaGroup := BuildMediaGroup(messages, caption);
        if |mediaGroup| > 0 {
          FannedOutStep(before, subscribers, done, t, Some(SendAlbum(items)), successCount, failCount, sends, userId);
          var album := SendAlbum(mediaGroup);
          sends := sends + [Delivery(userId, album)];
          var outcome := t(userId, album);
          if outcome != Ok {
            failCount := failCount + 1;
            if outcome == Blocked {
              subscribers := subscribers - {userId};
            }
          } else {
            successCount := successCount + 1;
          }
        }
        done := done + {userId};
        pending := pending - {userId};
      }
      assert done == before.Keys;
      report := Completed(successCount, failCount);
    }

    // ----- Media-group aggregator -----

    /** `handleAdminMedia` (main.go:181-207), up to arming the timer: the
        deferred check it arms is `SettleMediaGroup`, a step of its own. */
    method HandleAdminMedia(m: Message, t: Transport) returns (report: Option<Report>, sends: seq<Delivery>)
      requires Valid()
      modifies this`mediaGroups, this`subscribers
      ensures Valid()
      ensures AdminMediaHandled(old(mediaGroups), mediaGroups, old(subscribers), subscribers, m, t, report, sends)
    {
      if m.mediaGroupId != "" {
        mediaGroups := mediaGroups[m.mediaGroupId := GroupOf(mediaGroups, m.mediaGroupId) + [m]];
        report, sends := None, [];
      } else {
        var r;
        r, sends := SendToSubscribers(m, t);
        report := Some(r);
      }
    }

    /** The timer callback of main.go:191-202 for group `groupId`, run at time
        `now`: a group that is present, has more than one item and has been
        quiet is broadcast as one album and deleted; any other group, a
        one-item group included, is left as it is. */
    method SettleMediaGroup(groupId: string, now: int, t: Transport) returns (report: Option<Report>, sends: seq<Delivery>)
      requires Valid()
      modifies this`mediaGroups, this`subscribers
      ensures Valid()
      ensures ReadyToSettle(old(mediaGroups), groupId, now) ==>
        && mediaGroups == old(mediaGroups) - {groupId}
        && report.Some?
        && AlbumFanout(old(subscribers), subscribers, old(mediaGroups)[groupId], t, report.value, sends)
      ensures !ReadyToSettle(old(mediaGroups), groupId, now) ==>
        mediaGroups == old(mediaGroups) && subscribers == old(subscribers) && report == None && sends == []
    {
      report, sends := None, [];
      if groupId in mediaGroups {
        var messages := mediaGroups[groupId];
        if |messages| > 1 && IsLastMediaGroupMessage(messages, now) {
          var r;
          r, sends := SendMediaGroupToSubscribers(messages, t);
          report := Some(r);
          mediaGroups := mediaGroups - {groupId};
        }
      }
    }

    /** `cleanOldMediaGroups` (main.go:100-112), run at time `now`: a group is
        deleted exactly when it is non-empty and its first item is more than an
        hour old; every other group is kept as it was. */
    method CleanOldMediaGroups(now: int)
      requires Valid()
      modifies this`mediaGroups
      ensures Valid()
      ensures forall g :: g in mediaGroups <==> g in old(mediaGroups) && !IsStale(old(mediaGroups)[g], now)
      ensures forall g :: g in mediaGroups ==> mediaGroups[g] == old(mediaGroups)[g]
    {
      var pending := mediaGroups.Keys;
      while pending != {}
        invariant pending <= old(mediaGroups).Keys
        invariant forall g :: g in mediaGroups <==>
          g in old(mediaGroups) && (g in pending || !IsStale(old(mediaGroups)[g], now))
        invariant forall g :: g in mediaGroups ==> mediaGroups[g] == old(mediaGroups)[g]
        invariant Valid()
        decreases pending
      {
        var groupId := NextKey(pending);
        var messages := mediaGroups[groupId];
        if |messages| > 0 {
          if now - SentAtMs(messages[0]) > StaleAfterMs {
            mediaGroups := mediaGroups - {groupId};
          }
        }
        pending := pending - {groupId};
      }
    }

    // ----- Relay router -----

    /** `handleAdminMessage` (main.go:427-451): relay the admin's text. With a
        valid state the admin's own chat is the only binding, so with no
        reply reference the text goes nowhere exactly when no chat is open. */
    method HandleAdminMessage(m: Message) returns (sends: seq<Delivery>)
      requires Valid()
      ensures ReplyAddressed(m, userToAdmin, sends)
      ensures m.chatId == adminId && m.replyForwardFrom.None? ==> (sends == [] <==> userToAdmin.Keys == {})
    {
      var target := ResolveReplyTarget(m, userToAdmin);
      if target.Some? {
        sends := [Delivery(target.value, SendText(m.text))];
      } else {
        sends := [];
        if m.chatId == adminId && m.replyForwardFrom.None? {
          assert forall u: ChatId :: u in userToAdmin.Keys <==> u in {};
        }
      }
    }

    /** `handleMessage` (main.go:114-179): route the message, then run the
        chosen handler. `sends` lists the relayed and broadcast deliveries;
        menus, hints and listings are not modelled as sends. */
    method HandleMessage(m: Message, t: Transport) returns (a: Action, report: Option<Report>, sends: seq<Delivery>)
      requires Valid()
      modifies this`subscribers, this`activeChats, this`userToAdmin, this`mailingActive, this`mediaGroups
      ensures Valid()
      ensures a == Route(m, adminId, old(SessionActive(m.chatId)), old(mailingActive))
      ensures mailingActive == (if a == ToggleMailing then !old(mailingActive) else old(mailingActive))
      ensures a == AdminMedia ==>
        AdminMediaHandled(old(mediaGroups), mediaGroups, old(subscribers), subscribers, m, t, report, sends)
      ensures a != AdminMedia ==> mediaGroups == old(mediaGroups) && subscribers == old(subscribers) && report == None
      ensures a == AdminReply ==> ReplyAddressed(m, old(userToAdmin), sends)
      ensures a == EndChat ==>
        activeChats == old(activeChats) - {m.chatId} && userToAdmin == old(userToAdmin) - {m.chatId}
      ensures a == ForwardToAdmin ==>
        && sends == [Delivery(adminId, ForwardOf(m.chatId, m.messageId))]
        && activeChats == old(activeChats)
        && userToAdmin == old(userToAdmin)[m.chatId := adminId]
      ensures a != EndChat && a != ForwardToAdmin ==>
        activeChats == old(activeChats) && userToAdmin == old(userToAdmin)
      ensures a != AdminMedia && a != AdminReply && a != ForwardToAdmin ==> sends == []
    {
      a := Route(m, adminId, SessionActive(m.chatId), mailingActive);
      report, sends := None, [];
      match a {
        case ListSubscribers =>
        case ToggleMailing =>
          var _ := ToggleMailingStatus();
        case AdminMedia =>
          report, sends := HandleAdminMedia(m, t);
        case AdminReply =>
          sends := HandleAdminMessage(m);
        case EndChat =>
          EndChatWithManager(m.chatId);
        case ShowMenu =>
        case ForwardToAdmin =>
          sends := [Delivery(adminId, ForwardOf(m.chatId, m.messageId))];
          userToAdmin := userToAdmin[m.chatId := adminId];
        case MenuHint =>
      }
    }
  }
}

# dxbot relay and broadcast engine, in Dafny

dxbot is a Telegram bot that stands between one admin (the "manager") and the
users of a chat. Users can subscribe to a mailing list and open a one-to-one
chat with the manager. The admin's photos, documents and albums are broadcast
to every subscriber. Under the Telegram calls sits a small stateful engine,
and this project models and verifies it:

- **Subscriber registry**: user id to username and full name. The "subscribe"
  and "unsubscribe" buttons change it. A broadcast deletes every subscriber
  whose send failed because the user blocked the bot.
- **Session registry**: the two maps `activeChats` and `userToAdmin`. The
  "contact_manager" button opens a chat, `/stop` or "end_chat" closes it, and
  forwarding a user's message to the admin refreshes it. An admin reply with no
  reply reference is sent to a user found in it.
- **Mailing gate**: a flag that starts on. `/toggle_mailing` flips it. While
  it is off, admin media is treated as a plain admin message.
- **Media-group aggregator**: the items of an album, collected per group id in
  arrival order. A deferred check sends a group as one album and deletes it.
  A periodic sweep deletes groups that are more than an hour old.
- **Broadcast fan-out**: one send per subscriber. It counts successes and
  failures, deletes subscribers that blocked the bot, and chooses captions and
  album items as the source does.

Files, one module each:

- `telegram.dfy`: the API values the engine reads, and the send call as an
  oracle. `Transport` maps a recipient and a payload to
  `Ok | Blocked | OtherError`.
- `map_range.dfy`: `NextKey`, which stands for Go's unordered `range` over a
  map.
- `broadcast.dfy`: captions, album building, and the predicates
  `SingleFanout` and `AlbumFanout`, which state what a fan-out must produce.
  Also the lemmas about them.
- `media_groups.dfy`: how an arriving item is filed, plus the settle test and
  the staleness test, with time as an explicit `now` in milliseconds.
- `routing.dfy`: the dispatch of `handleMessage`, the admin-reply target, and
  the menu's subscribe or unsubscribe button.
- `engine.dfy`: class `Bot`. Its fields are the five process-wide registries.
  Each handler is a method with a `modifies` frame, and `Valid()` is the
  invariant they all keep.

Each handler is one atomic step. The deferred timer (`SettleMediaGroup`) and
the ten-minute sweep (`CleanOldMediaGroups`) are steps of their own, and the
caller passes in the current time.

Two behaviours of the code are easy to misread. The model follows the code
in both:

- A group with a single item is never sent as a standalone medium. The settle
  check requires more than one item before it takes the group as complete
  (main.go:196-197). Such a group therefore stays pending until the sweep
  deletes it (`SingleItemNeverSettles`), unless another item of the same album
  arrives first.
- The subscribers lock is held for the whole of a fan-out, and the
  media-groups lock for the whole of a settle check. A fan-out therefore walks
  the live registry and deletes from it as it goes. With atomic steps this is
  the behaviour `SendToSubscribers` and `SendMediaGroupToSubscribers` have.

Other behaviour of the code as written, kept as is:

- A single-medium broadcast of a message with neither a photo nor a document
  sends nothing. Go's nil error still counts every subscriber as a success.
  `handleMessage` never routes such a message there.
- The album caption goes only on the item whose original index is 0. If
  message 0 is neither a photo nor a document, no item carries a caption.

## Model

| member | source | states |
|---|---|---|
| Broadcast.SingleCaption | main.go:359-362 | the single-medium caption is never empty: it is the message's own caption when that is non-empty, otherwise the default text |
| Broadcast.SingleContent | main.go:370-381 | a message with a photo sends its last (largest) size with the single-medium caption; one with a document and no photo sends the document with that caption; a message with neither sends nothing |
| Broadcast.FirstCaptionIsEarliest | main.go:229-235 | the album caption scan returns the caption at the earliest index whose caption is non-empty |
| Broadcast.FirstCaptionAbsent | main.go:229-238 | the scan finds nothing exactly when every message's caption is empty, and then the default applies |
| Broadcast.AlbumCaption | main.go:236-238 | the album caption is never empty |
| Broadcast.ChooseAlbumCaption | main.go:228-238 | the scan-and-break loop returns the first non-empty caption, else the default text |
| Broadcast.MediaIndicesExact | main.go:247-262 | the selected indices are exactly those of photo or document messages, each once, in increasing order |
| Broadcast.AlbumFollowsMediaIndices | main.go:244-262 | album item k is built from the k-th photo or document message in original order; a photo uses its last (largest) size, a document its file |
| Broadcast.AlbumEmptyIffNoMedia | main.go:245-264 | the built album is empty exactly when no message is a photo or a document |
| Broadcast.AlbumCaptionOnFirst | main.go:251-259 | only album item 0 can carry the caption, and it does exactly when message 0 is a photo or document; every other item has an empty caption |
| Broadcast.BuildMediaGroup | main.go:245-262 | the append loop produces exactly `Album(messages, caption)` |
| Broadcast.TwoPhotoAlbum | main.go:247-262 | an album of two photo messages has exactly two items |
| Broadcast.OnePerRecipientCount | main.go:367-381 | one send to each recipient and no other sends means as many sends as recipients |
| Broadcast.FannedOutStep | main.go:367-393 | one recipient's turn adds one send of the content (when there is content), one success or one failure, and a deletion exactly when the send reported Blocked |
| Broadcast.FanoutAccounts | main.go:367-393 | after every subscriber's turn, successes plus failures equal the registry's size; a subscriber leaves exactly when its send reported Blocked; other entries are unchanged |
| Broadcast.SingleFanoutReport | main.go:348-393 | with no subscribers there is no send and no change; otherwise successes plus failures cover every subscriber, there is one send each (when there is content), and only blocked subscribers are removed |
| Broadcast.AlbumFanoutReport | main.go:219-278 | as for a single medium, except that an empty album means no send, no change to the registry, and a report of 0 successes and 0 failures |
| Broadcast.BlockedSubscriberScenario | main.go:367-393 | with subscribers 1, 2 and 3 where only 2 blocked the bot: the report is 2 successes and 1 failure, only 2 is removed, and three sends are made |
| MediaGroups.Arrive | main.go:188 | an arriving item goes to the end of its group's list (a missing group reads as empty); every other group is unchanged |
| MediaGroups.ArrivalOrderKept | main.go:188 | after a run of arrivals, each group holds its earlier items followed by exactly its own arrivals, in arrival order |
| MediaGroups.IsLastMediaGroupMessage | main.go:209-216 | false on an empty list; otherwise true exactly when the last item is more than 500 ms older than `now` |
| MediaGroups.ReadyToSettle | main.go:195-197 | a group settles exactly when it exists, has at least two items, and its last item is more than 500 ms old |
| MediaGroups.SingleItemNeverSettles | main.go:197 | a one-item group is never settled, at any time |
| MediaGroups.QuietStaysQuiet | main.go:209-216 | a group that is quiet at one time is still quiet at every later time |
| MediaGroups.IsStale | main.go:105-107 | the sweep's test holds exactly when the group is non-empty and its first item is more than an hour older than `now` |
| MediaGroups.StaleStaysStale | main.go:105-107 | a group stale at one sweep is still stale at every later sweep |
| Routing.Route | main.go:114-179 | the exact condition for each handler. For the admin the order is `/subscribers`, `/toggle_mailing`, media while the gate is open, then reply. For a user with an open chat, only `/stop` and `/start` are interpreted and anything else is forwarded. Otherwise `/start` shows the menu and anything else gets the hint |
| Routing.HasMedia | main.go:130 | a message counts as admin media exactly when it has a photo, a document or an album id; a message with none of the three does not |
| Routing.ResolveReplyTarget | main.go:427-451 | the reply goes to the forwarded message's sender when one is known; otherwise to some user bound to the admin's chat, and to nobody exactly when no user is bound |
| Routing.SubscribeButtonData | main.go:538-552 | the menu offers "unsubscribe" exactly to subscribers and "subscribe" exactly to everyone else |
| Engine.TwoPhotoAlbumSettles | main.go:183-200 | two photos of a new group: with only the first arrived the group never settles; once both have arrived and the second is quiet, the group is ready, holds both in arrival order, and the album has two items |
| Engine.UngroupedMediaHasContent | main.go:203-206 | admin media that has no album id always carries a photo or a document, so its single-medium broadcast never comes out empty |
| Engine.Bot.constructor | main.go:17-42 | at start-up every registry is empty and the mailing gate is on |
| Engine.Bot.SessionActive | main.go:139-141 | a user with no `activeChats` entry has no open chat (Go's missing-key default false); otherwise the stored flag decides |
| Engine.Bot.SessionActiveIffBound | main.go:501-508 | in a valid state a chat is open exactly when the user is bound to the admin in `userToAdmin` |
| Engine.Bot.Subscribe | main.go:463-475 | "new" is reported exactly when the id was absent; afterwards the id has exactly one entry, holding the latest username and first name + " " + last name; all other entries are unchanged; the menu now offers "unsubscribe" |
| Engine.Bot.Unsubscribe | main.go:490-493 | the id's entry is deleted; nothing changes when it was absent; all other entries are unchanged; the menu now offers "subscribe" |
| Engine.Bot.ContactManager | main.go:501-508 | the chat becomes active and is bound to the admin; no other session entry changes |
| Engine.Bot.EndChatWithManager | main.go:405-412 | the user is removed from both session maps and nothing else changes |
| Engine.Bot.HandleCallback | main.go:453-536 | each button data value changes exactly the registries of its case; "close" and unknown data change nothing; only "subscribe" can report a new subscriber |
| Engine.Bot.ToggleMailingStatus | main.go:324-328 | the gate is flipped and the new value is returned, so two toggles restore it |
| Engine.Bot.IsMailingActive | main.go:341-345 | returns the gate without changing anything |
| Engine.Bot.SendToSubscribers | main.go:347-393 | the single-medium fan-out produces exactly what `SingleFanout` describes |
| Engine.Bot.SendMediaGroupToSubscribers | main.go:218-278 | the album fan-out produces exactly what `AlbumFanout` describes, with the album rebuilt for each recipient |
| Engine.Bot.HandleAdminMedia | main.go:181-207 | an album item is appended to its group and nothing is sent; any other medium is broadcast at once as a single medium |
| Engine.Bot.SettleMediaGroup | main.go:191-202 | a present, quiet group with more than one item is broadcast as one album and deleted; a missing, one-item or fresh group is left untouched and nothing is sent |
| Engine.Bot.CleanOldMediaGroups | main.go:100-112 | a group is deleted exactly when it is non-empty and its first item is more than an hour old; empty and fresher groups remain unchanged |
| Engine.Bot.HandleAdminMessage | main.go:427-451 | the admin's text goes to the reply target, or to nobody; with no reply reference it goes nowhere exactly when no chat is open |
| Engine.Bot.HandleMessage | main.go:114-179 | the handler run is the one `Route` picks from the state before the message; exactly the registries that handler owns change. A forward refreshes the binding to the admin, and the gate flips only on `/toggle_mailing` |

## Left out

- Start-up (main.go:49-98) is left out: `.env` and environment loading,
  parsing `ADMIN_ID`, building the bot and the update loop. `Bot` takes the
  admin id at construction, and callers invoke the handlers one update at a
  time.
- The Telegram client is an oracle. `Transport` gives each recipient's outcome
  as a function of the recipient and the payload. Each recipient gets one
  call per fan-out, so this loses nothing within one fan-out. The error-text
  comparison with "Forbidden: bot was blocked by the user" becomes the outcome
  `Blocked`.
- The outcomes of forwards, reply texts, menus, notices, reports and callback
  acknowledgements are left out. The source only logs them.
- Text rendering is left out: the subscriber list (`sendSubscribersList`),
  the new-subscriber notice (`notifyNewSubscriber`), the broadcast report
  strings, the hint, the "close" text, and the menu keyboard. The model keeps
  only the choice between "subscribe" and "unsubscribe", and the success and
  failure counts of a report. The album report's message count is not part of
  `Report`.
- Mutexes, goroutines, `time.AfterFunc` and `time.Sleep` are left out. Each
  function is one atomic step. The timer callback is `SettleMediaGroup` and
  the ten-minute loop is `CleanOldMediaGroups`. The caller decides when each
  runs and passes `now`, so the one-second timer delay and the ten-minute
  period are also left to the caller.
- Floating-point `time.Since(...).Seconds()` and `.Hours()` become integer
  millisecond comparisons against `now`. A message's time is its `Date`
  (whole seconds) times 1000.
- Go map iteration order is unspecified. Each range loop takes any key not
  yet visited (`MapRange.NextKey`), and the contracts hold for every order.
- Routing.ResolveReplyTarget: the source sends to the first match in Go's map
  order. The contract states only that the target is some matching user,
  because that order is unspecified.

## Findings

None.

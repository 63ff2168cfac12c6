/** The broadcast engine's pure part: caption choice, album building, and
    what a fan-out over the subscriber registry must come to. The loops that
    perform a fan-out live in `Engine.Bot`; their postconditions are the
    predicates `SingleFanout` and `AlbumFanout` below. */
module Broadcast {
  import opened Telegram

  /** The caption used when the admin supplied none. */
  const DefaultCaption: string := "Добрый день! У нас новое поступление. Ознакомьтесь с обновлением!"

  /** The counts a fan-out reports to the admin, or the notice that there was nobody to send to. */
  datatype Report = NoSubscribers | Completed(succeeded: nat, failed: nat)

  // ----- Single medium -----

  /** The caption of a single-medium broadcast: the message's own caption, else the default. */
  function SingleCaption(m: Message): (c: string)
    ensures c != ""
    ensures m.caption != "" ==> c == m.caption
    ensures m.caption == "" ==> c == DefaultCaption
  {
    if m.caption != "" then m.caption else DefaultCaption
  }

  /** What one recipient of a single-medium broadcast is sent: the largest
      size of the photo, else the document, else nothing at all. */
  function SingleContent(m: Message): (c: Option<Outbound>)
    ensures |m.photo| > 0 ==> c == Some(SendPhoto(m.photo[|m.photo| - 1].fileId, SingleCaption(m)))
    ensures |m.photo| == 0 && m.document.Some? ==> c == Some(SendDocument(m.document.value.fileId, SingleCaption(m)))
    ensures c.None? <==> |m.photo| == 0 && m.document.None?
  {
    if |m.photo| > 0 then Some(SendPhoto(m.photo[|m.photo| - 1].fileId, SingleCaption(m)))
    else if m.document.Some? then Some(SendDocument(m.document.value.fileId, SingleCaption(m)))
    else None
  }

  // ----- Album caption -----

  /** The first non-empty caption among `ms`, or "" if there is none. */
  function FirstCaption(ms: seq<Message>): string
  {
    if ms == [] then "" else if ms[0].caption != "" then ms[0].caption else FirstCaption(ms[1..])
  }

  /** The caption of an album broadcast. */
  function AlbumCaption(ms: seq<Message>): (c: string)
    ensures c != ""
  {
    var first := FirstCaption(ms);
    if first != "" then first else DefaultCaption
  }

  /** The caption chosen is the one at the first index that has a caption. */
  lemma {:induction false} FirstCaptionIsEarliest(ms: seq<Message>, k: nat)
    requires k < |ms| && ms[k].caption != ""
    requires forall j :: 0 <= j < k ==> ms[j].caption == ""
    ensures FirstCaption(ms) == ms[k].caption
  {
    if k > 0 {
      assert ms[0].caption == "";
      FirstCaptionIsEarliest(ms[1..], k - 1);
    }
  }

  /** There is no first caption exactly when no message has a caption. */
  lemma {:induction false} FirstCaptionAbsent(ms: seq<Message>)
    ensures FirstCaption(ms) == "" <==> forall i :: 0 <= i < |ms| ==> ms[i].caption == ""
  {
    if ms != [] {
      FirstCaptionAbsent(ms[1..]);
      assert forall i :: 1 <= i < |ms| ==> ms[i].caption == ms[1..][i - 1].caption;
    }
  }

  /** The loop of main.go:229-238: scan for the first caption, stop there, fall back to the default. */
  method ChooseAlbumCaption(ms: seq<Message>) returns (caption: string)
    ensures caption == AlbumCaption(ms)
  {
    caption := "";
    var i := 0;
    while i < |ms|
      invariant 0 <= i <= |ms|
      invariant caption == ""
      invariant FirstCaption(ms[i..]) == FirstCaption(ms)
    {
      if ms[i].caption != "" {
        caption := ms[i].caption;
        break;
      }
      assert ms[i..][1..] == ms[i + 1..];
      i := i + 1;
    }
    if caption == "" {
      caption := DefaultCaption;
    }
  }

  // ----- Album items -----

  /** Only photos and documents become album items. */
  predicate IsMedia(m: Message)
  {
    |m.photo| > 0 || m.document.Some?
  }

  /** The album item for the message at original index `i`: the largest photo
      size, else the document; only index 0 carries the caption. */
  function MediaItem(m: Message, i: nat, caption: string): InputMedia
    requires IsMedia(m)
  {
    var c := if i == 0 then caption else "";
    if |m.photo| > 0 then InputPhoto(m.photo[|m.photo| - 1].fileId, c)
    else InputDocument(m.document.value.fileId, c)
  }

  /** The album built by main.go:245-262, item by item in message order. */
  function Album(ms: seq<Message>, caption: string): seq<InputMedia>
    decreases |ms|
  {
    if ms == [] then []
    else
      var n := |ms| - 1;
      Album(ms[..n], caption) + (if IsMedia(ms[n]) then [MediaItem(ms[n], n, caption)] else [])
  }

  /** The original indices of the photo and document messages, in order. */
  function MediaIndices(ms: seq<Message>): seq<nat>
    decreases |ms|
  {
    if ms == [] then []
    else
      var n := |ms| - 1;
      MediaIndices(ms[..n]) + (if IsMedia(ms[n]) then [n] else [])
  }

  /** `MediaIndices` lists exactly the photo and document indices, each once and in increasing order. */
  lemma {:induction false} MediaIndicesExact(ms: seq<Message>)
    ensures forall k :: 0 <= k < |MediaIndices(ms)| ==>
      MediaIndices(ms)[k] < |ms| && IsMedia(ms[MediaIndices(ms)[k]])
    ensures forall i :: 0 <= i < |ms| && IsMedia(ms[i]) ==> i in MediaIndices(ms)
    ensures forall k1, k2 :: 0 <= k1 < k2 < |MediaIndices(ms)| ==> MediaIndices(ms)[k1] < MediaIndices(ms)[k2]
    decreases |ms|
  {
    if ms != [] {
      var n := |ms| - 1;
      var pre := ms[..n];
      MediaIndicesExact(pre);
      assert forall i :: 0 <= i < n ==> pre[i] == ms[i];
    }
  }

  /** Item k of the album is built from message `MediaIndices(ms)[k]`: the album
      keeps the photos and documents, in their original order, and nothing else. */
  lemma {:induction false} AlbumFollowsMediaIndices(ms: seq<Message>, caption: string)
    ensures |Album(ms, caption)| == |MediaIndices(ms)|
    ensures forall k :: 0 <= k < |Album(ms, caption)| ==>
      MediaIndices(ms)[k] < |ms| && IsMedia(ms[MediaIndices(ms)[k]]) &&
      Album(ms, caption)[k] == MediaItem(ms[MediaIndices(ms)[k]], MediaIndices(ms)[k], caption)
    decreases |ms|
  {
    MediaIndicesExact(ms);
    if ms != [] {
      var n := |ms| - 1;
      var pre := ms[..n];
      AlbumFollowsMediaIndices(pre, caption);
      MediaIndicesExact(pre);
      assert forall i :: 0 <= i < n ==> pre[i] == ms[i];
    }
  }

  /** The album is empty exactly when no message is a photo or a document. */
  lemma AlbumEmptyIffNoMedia(ms: seq<Message>, caption: string)
    ensures Album(ms, caption) == [] <==> forall i :: 0 <= i < |ms| ==> !IsMedia(ms[i])
  {
    AlbumFollowsMediaIndices(ms, caption);
    MediaIndicesExact(ms);
    if Album(ms, caption) != [] {
      var i := MediaIndices(ms)[0];
      assert 0 <= i < |ms| && IsMedia(ms[i]);
    }
  }

  /** Only the first album item can carry the caption, and it does exactly
      when the first message is a photo or a document. */
  lemma AlbumCaptionOnFirst(ms: seq<Message>, caption: string)
    ensures forall k :: 0 <= k < |Album(ms, caption)| ==>
      Album(ms, caption)[k].caption == (if k == 0 && IsMedia(ms[0]) then caption else "")
  {
    AlbumFollowsMediaIndices(ms, caption);
    MediaIndicesExact(ms);
    var idx := MediaIndices(ms);
    forall k | 0 <= k < |Album(ms, caption)|
      ensures Album(ms, caption)[k].caption == (if k == 0 && IsMedia(ms[0]) then caption else "")
    {
      if k == 0 && IsMedia(ms[0]) {
        assert 0 in idx;
        assert idx[0] == 0;
      } else if k > 0 {
        assert idx[0] < idx[k];
      } else {
        assert idx[0] != 0;
      }
    }
  }

  /** The loop of main.go:245-262: append one item per photo or document message. */
  method BuildMediaGroup(ms: seq<Message>, caption: string) returns (items: seq<InputMedia>)
    ensures items == Album(ms, caption)
  {
    items := [];
    var i := 0;
    while i < |ms|
      invariant 0 <= i <= |ms|
      invariant items == Album(ms[..i], caption)
    {
      var msg := ms[i];
      assert ms[..i + 1][..i] == ms[..i];
      if |msg.photo| > 0 {
        var photo := msg.photo[|msg.photo| - 1];
        items := items + [InputPhoto(photo.fileId, if i == 0 then caption else "")];
      } else if msg.document.Some? {
        items := items + [InputDocument(msg.document.value.fileId, if i == 0 then caption else "")];
      }
      i := i + 1;
    }
    assert ms[..i] == ms;
  }

  /** Two photos make a two-item album. */
  lemma TwoPhotoAlbum(a: Message, b: Message)
    requires |a.photo| > 0 && |b.photo| > 0
    ensures |Album([a, b], AlbumCaption([a, b]))| == 2
  {
    var c := AlbumCaption([a, b]);
    assert [a, b][..1] == [a];
    assert Album([a], c) == [MediaItem(a, 0, c)];
    assert Album([a, b], c) == [MediaItem(a, 0, c), MediaItem(b, 1, c)];
  }

  // ----- Fan-out -----

  /** How one recipient's turn ends: with no content there is no send and the
      nil error counts as a success. */
  function OutcomeFor(t: Transport, u: ChatId, content: Option<Outbound>): SendOutcome
  {
    if content.None? then Ok else t(u, content.value)
  }

  function Succeeded(keys: set<ChatId>, t: Transport, content: Option<Outbound>): set<ChatId>
  {
    set u | u in keys && OutcomeFor(t, u, content) == Ok
  }

  function Failed(keys: set<ChatId>, t: Transport, content: Option<Outbound>): set<ChatId>
  {
    set u | u in keys && OutcomeFor(t, u, content) != Ok
  }

  /** The recipients that blocked the bot; the only ones a fan-out deletes. */
  function Pruned(keys: set<ChatId>, t: Transport, content: Option<Outbound>): set<ChatId>
  {
    set u | u in keys && OutcomeFor(t, u, content) == Blocked
  }

  /** The recipients of a list of deliveries. */
  function Recipients(sends: seq<Delivery>): set<ChatId>
    decreases |sends|
  {
    if sends == [] then {} else Recipients(sends[..|sends| - 1]) + {sends[|sends| - 1].to}
  }

  lemma {:induction false} RecipientsHas(sends: seq<Delivery>)
    ensures forall i :: 0 <= i < |sends| ==> sends[i].to in Recipients(sends)
    decreases |sends|
  {
    if sends != [] {
      var pre := sends[..|sends| - 1];
      RecipientsHas(pre);
      assert forall i :: 0 <= i < |pre| ==> pre[i] == sends[i];
    }
  }

  lemma {:induction false} RecipientsFrom(sends: seq<Delivery>)
    ensures forall x :: x in Recipients(sends) ==> exists i :: 0 <= i < |sends| && sends[i].to == x
    decreases |sends|
  {
    if sends != [] {
      var pre := sends[..|sends| - 1];
      RecipientsFrom(pre);
      assert forall i :: 0 <= i < |pre| ==> pre[i] == sends[i];
    }
  }

  /** Every key was sent `c` exactly once, and nobody else was sent anything. */
  ghost predicate OnePerRecipient(sends: seq<Delivery>, keys: set<ChatId>, c: Outbound)
  {
    && Recipients(sends) == keys
    && (forall i :: 0 <= i < |sends| ==> sends[i].content == c)
    && (forall i, j :: 0 <= i < j < |sends| ==> sends[i].to != sends[j].to)
  }

  /** One send per recipient means as many sends as recipients. */
  lemma {:induction false} OnePerRecipientCount(sends: seq<Delivery>, keys: set<ChatId>, c: Outbound)
    requires OnePerRecipient(sends, keys, c)
    ensures |sends| == |keys|
    decreases |sends|
  {
    if sends != [] {
      var n := |sends| - 1;
      var pre := sends[..n];
      assert forall i :: 0 <= i < |pre| ==> pre[i] == sends[i];
      RecipientsFrom(pre);
      assert sends[n].to !in Recipients(pre);
      OnePerRecipientCount(pre, Recipients(pre), c);
    }
  }

  /** The state of a fan-out once the recipients in `done` have had their turn:
      the counts are those of `done`, blocked recipients of `done` are gone from
      the registry and nothing else changed in it, and each of `done` got one send. */
  ghost predicate FannedOut<V>(
    before: map<ChatId, V>, after: map<ChatId, V>, done: set<ChatId>,
    t: Transport, content: Option<Outbound>, success: nat, fail: nat, sends: seq<Delivery>)
  {
    && done <= before.Keys
    && success == |Succeeded(done, t, content)|
    && fail == |Failed(done, t, content)|
    && after == before - Pruned(done, t, content)
    && (content.None? ==> sends == [])
    && (content.Some? ==> OnePerRecipient(sends, done, content.value))
  }

  lemma FannedOutStart<V>(before: map<ChatId, V>, t: Transport, content: Option<Outbound>)
    ensures FannedOut(before, before, {}, t, content, 0, 0, [])
  {
    assert before - {} == before;
  }

  /** Counting one more recipient adds it to the successes or to the failures. */
  lemma CountStep(done: set<ChatId>, t: Transport, content: Option<Outbound>, u: ChatId)
    requires u !in done
    ensures OutcomeFor(t, u, content) == Ok ==>
      |Succeeded(done + {u}, t, content)| == |Succeeded(done, t, content)| + 1 &&
      |Failed(done + {u}, t, content)| == |Failed(done, t, content)|
    ensures OutcomeFor(t, u, content) != Ok ==>
      |Succeeded(done + {u}, t, content)| == |Succeeded(done, t, content)| &&
      |Failed(done + {u}, t, content)| == |Failed(done, t, content)| + 1
  {
    if OutcomeFor(t, u, content) == Ok {
      assert Succeeded(done + {u}, t, content) == Succeeded(done, t, content) + {u};
      assert Failed(done + {u}, t, content) == Failed(done, t, content);
    } else {
      assert Succeeded(done + {u}, t, content) == Succeeded(done, t, content);
      assert Failed(done + {u}, t, content) == Failed(done, t, content) + {u};
    }
  }

  /** Pruning after one more recipient removes it exactly when it blocked the bot. */
  lemma PruneStep<V>(before: map<ChatId, V>, done: set<ChatId>, t: Transport, content: Option<Outbound>, u: ChatId)
    ensures OutcomeFor(t, u, content) == Blocked ==>
      before - Pruned(done + {u}, t, content) == (before - Pruned(done, t, content)) - {u}
    ensures OutcomeFor(t, u, content) != Blocked ==>
      before - Pruned(done + {u}, t, content) == before - Pruned(done, t, content)
  {
    if OutcomeFor(t, u, content) == Blocked {
      assert Pruned(done + {u}, t, content) == Pruned(done, t, content) + {u};
    } else {
      assert Pruned(done + {u}, t, content) == Pruned(done, t, content);
    }
  }

  /** Sending to one more recipient that had no send yet keeps one send per recipient. */
  lemma SendStep(sends: seq<Delivery>, done: set<ChatId>, c: Outbound, u: ChatId)
    requires OnePerRecipient(sends, done, c) && u !in done
    ensures OnePerRecipient(sends + [Delivery(u, c)], done + {u}, c)
  {
    var sends' := sends + [Delivery(u, c)];
    assert sends'[..|sends'| - 1] == sends;
    RecipientsHas(sends);
  }

  /** One more recipient's turn: one send (if there is content), one count, and a deletion if it blocked the bot. */
  lemma FannedOutStep<V>(
    before: map<ChatId, V>, after: map<ChatId, V>, done: set<ChatId>,
    t: Transport, content: Option<Outbound>, success: nat, fail: nat, sends: seq<Delivery>, u: ChatId)
    requires FannedOut(before, after, done, t, content, success, fail, sends)
    requires u in before && u !in done
    ensures var o := OutcomeFor(t, u, content);
      FannedOut(before, if o == Blocked then after - {u} else after, done + {u}, t, content,
        if o == Ok then success + 1 else success,
        if o == Ok then fail else fail + 1,
        if content.Some? then sends + [Delivery(u, content.value)] else sends)
  {
    CountStep(done, t, content, u);
    PruneStep(before, done, t, content, u);
    if content.Some? {
      SendStep(sends, done, content.value, u);
    }
  }

  /** A finished fan-out accounts for every subscriber once: successes and
      failures add up to the registry's size, a subscriber leaves the registry
      exactly when its send reported that it blocked the bot, the others keep
      their entries, and (when there is content) there are as many sends as subscribers. */
  lemma FanoutAccounts<V>(
    before: map<ChatId, V>, after: map<ChatId, V>,
    t: Transport, content: Option<Outbound>, success: nat, fail: nat, sends: seq<Delivery>)
    requires FannedOut(before, after, before.Keys, t, content, success, fail, sends)
    ensures success + fail == |before|
    ensures forall u :: u in before ==> (u in after <==> OutcomeFor(t, u, content) != Blocked)
    ensures forall u :: u in after ==> u in before && after[u] == before[u]
    ensures content.Some? ==> |sends| == |before|
    ensures content.None? ==> success == |before| && fail == 0 && after == before
  {
    var keys := before.Keys;
    var ok := Succeeded(keys, t, content);
    var bad := Failed(keys, t, content);
    assert ok + bad == keys;
    assert ok * bad == {};
    assert |ok + bad| == |ok| + |bad| - |ok * bad|;
    if content.Some? {
      OnePerRecipientCount(sends, keys, content.value);
    } else {
      assert ok == keys;
      assert Pruned(keys, t, content) == {};
      assert after == before;
    }
  }

  /** The outcome of a single-medium fan-out (main.go:351-393), given the registry
      before and after it, the report returned and the sends made. */
  ghost predicate SingleFanout<V>(
    before: map<ChatId, V>, after: map<ChatId, V>, m: Message, t: Transport,
    report: Report, sends: seq<Delivery>)
  {
    if |before| == 0 then report == NoSubscribers && sends == [] && after == before
    else
      (report.Completed? &&
       FannedOut(before, after, before.Keys, t, SingleContent(m), report.succeeded, report.failed, sends))
  }

  /** The outcome of an album fan-out (main.go:222-278): the same, except that a
      recipient whose album comes out empty gets no send and is counted neither way. */
  ghost predicate AlbumFanout<V>(
    before: map<ChatId, V>, after: map<ChatId, V>, ms: seq<Message>, t: Transport,
    report: Report, sends: seq<Delivery>)
  {
    if |before| == 0 then report == NoSubscribers && sends == [] && after == before
    else
      var items := Album(ms, AlbumCaption(ms));
      if items == [] then report == Completed(0, 0) && sends == [] && after == before
      else
        (report.Completed? &&
         FannedOut(before, after, before.Keys, t, Some(SendAlbum(items)), report.succeeded, report.failed, sends))
  }

  /** What a single-medium broadcast comes to: "no subscribers" exactly when
      the registry was empty, and then no send and no change; otherwise the
      counts cover every subscriber once, and a subscriber is removed exactly
      when its send reported that it blocked the bot. */
  lemma SingleFanoutReport<V>(
    before: map<ChatId, V>, after: map<ChatId, V>, m: Message, t: Transport,
    report: Report, sends: seq<Delivery>)
    requires SingleFanout(before, after, m, t, report, sends)
    ensures report == NoSubscribers <==> |before| == 0
    ensures report == NoSubscribers ==> sends == [] && after == before
    ensures report.Completed? ==> report.succeeded + report.failed == |before|
    ensures SingleContent(m).Some? ==> |sends| == |before|
    ensures forall u :: u in before ==> (u in after <==> OutcomeFor(t, u, SingleContent(m)) != Blocked)
    ensures forall u :: u in after ==> u in before && after[u] == before[u]
  {
    if |before| > 0 {
      FanoutAccounts(before, after, t, SingleContent(m), report.succeeded, report.failed, sends);
    }
  }

  /** What an album broadcast comes to: as for a single medium, except that an
      empty album (no photo or document among the messages, by
      `AlbumEmptyIffNoMedia`) is sent to nobody and counted neither way. */
  lemma AlbumFanoutReport<V>(
    before: map<ChatId, V>, after: map<ChatId, V>, ms: seq<Message>, t: Transport,
    report: Report, sends: seq<Delivery>)
    requires AlbumFanout(before, after, ms, t, report, sends)
    ensures report == NoSubscribers <==> |before| == 0
    ensures (|before| == 0 || Album(ms, AlbumCaption(ms)) == []) ==> sends == [] && after == before
    ensures |before| > 0 && Album(ms, AlbumCaption(ms)) == [] ==> report == Completed(0, 0)
    ensures |before| > 0 && Album(ms, AlbumCaption(ms)) != [] ==>
      report.Completed? && report.succeeded + report.failed == |before| && |sends| == |before|
    ensures Album(ms, AlbumCaption(ms)) != [] ==> forall u :: u in before ==>
      (u in after <==> t(u, SendAlbum(Album(ms, AlbumCaption(ms)))) != Blocked)
    ensures forall u :: u in after ==> u in before && after[u] == before[u]
  {
    var items := Album(ms, AlbumCaption(ms));
    if |before| > 0 && items != [] {
      FanoutAccounts(before, after, t, Some(SendAlbum(items)), report.succeeded, report.failed, sends);
    }
  }

  /** Three subscribers of which the second has blocked the bot: two successes,
      one failure, and only the second leaves the registry. */
  lemma BlockedSubscriberScenario<V>(
    before: map<ChatId, V>, after: map<ChatId, V>, m: Message, t: Transport,
    report: Report, sends: seq<Delivery>)
    requires before.Keys == {1, 2, 3} && SingleContent(m).Some?
    requires t(1, SingleContent(m).value) == Ok
    requires t(2, SingleContent(m).value) == Blocked
    requires t(3, SingleContent(m).value) == Ok
    requires SingleFanout(before, after, m, t, report, sends)
    ensures report == Completed(2, 1)
    ensures after.Keys == {1, 3} && |sends| == 3
  {
    var c := SingleContent(m);
    assert |before| == 3;
    assert Succeeded(before.Keys, t, c) == {1, 3};
    assert Failed(before.Keys, t, c) == {2};
    assert Pruned(before.Keys, t, c) == {2};
    FanoutAccounts(before, after, t, c, report.succeeded, report.failed, sends);
  }
}

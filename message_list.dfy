/** components/message-list.tsx: how a list of messages renders (date dividers and message
    rows, reaction chips, the thread summary, the row actions), which rows report that they
    were seen, and the events the list emits. */
module MessageList {
  import opened Common
  import opened Entities

  /** One rendered item: a divider labelled with the item's content, or a message row. */
  datatype Item = Divider(text: Option<string>) | Row(id: string)

  /** Items whose `type` is `'date'` are dividers; every other item is a row. */
  function ItemOf(m: Message): (it: Item)
    ensures it.Divider? <==> m.kind == Some("date")
    ensures it.Divider? ==> it.text == m.content
    ensures it.Row? ==> it.id == m.id
  {
    if m.kind == Some("date") then Divider(m.content) else Row(m.id)
  }

  /** `messages?.map(...)`: nothing for an undefined list, otherwise one item per message,
      in order. */
  function Items(messages: Option<seq<Message>>): (r: Option<seq<Item>>)
    ensures r.Some? <==> messages.Some?
    ensures r.Some? ==> |r.value| == |messages.value|
    ensures r.Some? ==> forall i :: 0 <= i < |r.value| ==> r.value[i] == ItemOf(messages.value[i])
  {
    if messages.None? then None else Some(ItemsOf(messages.value))
  }

  function ItemsOf(messages: seq<Message>): (r: seq<Item>)
    ensures |r| == |messages|
    ensures forall i :: 0 <= i < |r| ==> r[i] == ItemOf(messages[i])
  {
    if messages == [] then [] else [ItemOf(messages[0])] + ItemsOf(messages[1..])
  }

  /** The row's `data-message-seen` attribute: React writes a boolean data attribute as the
      string `"true"` or `"false"` and leaves an undefined one out. */
  function SeenAttribute(hasRead: Option<bool>): (r: Option<string>)
    ensures r == Some("false") <==> hasRead == Some(false)
    ensures r.None? <==> hasRead.None?
  {
    match hasRead
    case None => None
    case Some(b) => Some(if b then "true" else "false")
  }

  /** An intersection observer entry: whether the row is visible, and the row's
      `data-message-id` and `data-message-seen` attributes (`null` when absent). */
  datatype Entry = Entry(isIntersecting: bool, messageId: Option<string>, seen: Option<string>)

  /** The entry the observer reports for a message row. */
  function EntryFor(m: Message, isIntersecting: bool): Entry {
    Entry(isIntersecting, Some(m.id), SeenAttribute(m.hasRead))
  }

  /** An entry reports a view when it intersects and its seen attribute is `'false'`. */
  predicate Reports(e: Entry) {
    e.isIntersecting && e.seen == Some("false")
  }

  /** The `message-view` events the observer callback sends for a batch of entries, in
      order: one per entry that reports, carrying that entry's message id. */
  function ViewEmissions(entries: seq<Entry>): (r: seq<Outbound>)
    ensures |r| <= |entries|
    ensures forall x :: x in r ==> x.MessageView? && exists e :: e in entries && Reports(e) && e.messageId == x.messageId
  {
    if entries == [] then []
    else
      var rest := ViewEmissions(entries[1..]);
      assert forall e :: e in entries[1..] ==> e in entries;
      if Reports(entries[0]) then [MessageView(entries[0].messageId)] + rest else rest
  }

  /** The callback handles a batch entry by entry: a longer batch adds its entries' reports
      after the earlier ones. */
  lemma {:induction false} ViewEmissionsAppend(a: seq<Entry>, b: seq<Entry>)
    ensures ViewEmissions(a + b) == ViewEmissions(a) + ViewEmissions(b)
  {
    if a == [] {
      assert a + b == b;
    } else {
      assert (a + b)[0] == a[0] && (a + b)[1..] == a[1..] + b;
      ViewEmissionsAppend(a[1..], b);
    }
  }

  /** One entry sends its message id when it reports, and nothing otherwise. */
  lemma ViewEmissionsSingle(e: Entry)
    ensures ViewEmissions([e]) == if Reports(e) then [MessageView(e.messageId)] else []
  {
    assert [e][1..] == [];
  }

  /** Handling one more entry of a batch adds that entry's report, if any, at the end. */
  lemma ViewEmissionsStep(entries: seq<Entry>, k: nat)
    requires k < |entries|
    ensures ViewEmissions(entries[..k + 1]) ==
      ViewEmissions(entries[..k]) + if Reports(entries[k]) then [MessageView(entries[k].messageId)] else []
  {
    assert entries[..k + 1] == entries[..k] + [entries[k]];
    ViewEmissionsAppend(entries[..k], [entries[k]]);
    ViewEmissionsSingle(entries[k]);
  }

  /** A message row reports itself exactly when it is visible and known to be unread; a
      read message, or one whose read state is unknown, never does. */
  lemma RowReportsIffUnread(m: Message, isIntersecting: bool)
    ensures ViewEmissions([EntryFor(m, isIntersecting)]) ==
      if isIntersecting && m.hasRead == Some(false) then [MessageView(Some(m.id))] else []
  {
    ViewEmissionsSingle(EntryFor(m, isIntersecting));
  }

  /** `reaction.reactedToBy.some((user) => user?._id === userId)`. */
  function ReactedBy(users: seq<User>, userId: Option<string>): (b: bool)
    ensures b <==> exists i :: 0 <= i < |users| && Some(users[i].id) == userId
  {
    if users == [] then false
    else if Some(users[0].id) == userId then true
    else
      assert forall i :: 1 <= i < |users| ==> users[i] == users[1..][i - 1];
      ReactedBy(users[1..], userId)
  }

  /** A reaction chip: its emoji, its count, whether it is highlighted, and its tooltip. */
  datatype Chip = Chip(emoji: string, count: nat, highlighted: bool, tooltip: string)

  /** The chip for a reaction as seen by `userId`: the count is the number of reactors, the
      chip is highlighted when the user is one of them, and the tooltip lists the reactors. */
  function ChipFor(reaction: Reaction, userId: Option<string>): (c: Chip)
    ensures c.emoji == reaction.emoji
    ensures c.count == |reaction.reactedToBy|
    ensures c.highlighted <==> exists i :: 0 <= i < |reaction.reactedToBy| && Some(reaction.reactedToBy[i].id) == userId
    ensures c.tooltip == Join(Names(reaction.reactedToBy), ", ")
  {
    Chip(reaction.emoji, |reaction.reactedToBy|, ReactedBy(reaction.reactedToBy, userId),
         Join(Names(reaction.reactedToBy), ", "))
  }

  /** The reactors' usernames as `join` prints them: an undefined one becomes empty. */
  function Names(users: seq<User>): (r: seq<string>)
    ensures |r| == |users|
    ensures forall i :: 0 <= i < |users| ==> r[i] == users[i].username.GetOr("")
  {
    if users == [] then [] else [users[0].username.GetOr("")] + Names(users[1..])
  }

  /** `Array.prototype.join`. */
  function Join(parts: seq<string>, sep: string): string {
    if |parts| == 0 then ""
    else if |parts| == 1 then parts[0]
    else parts[0] + sep + Join(parts[1..], sep)
  }

  /** Joining a longer list puts the separator, then the new part, after the joined prefix. */
  lemma {:induction false} JoinSnoc(parts: seq<string>, x: string, sep: string)
    requires |parts| > 0
    ensures Join(parts + [x], sep) == Join(parts, sep) + sep + x
  {
    if |parts| == 1 {
      assert (parts + [x])[1..] == [x];
    } else {
      assert (parts + [x])[0] == parts[0] && (parts + [x])[1..] == parts[1..] + [x];
      JoinSnoc(parts[1..], x, sep);
    }
  }

  /** The joined text is exactly its parts plus one separator between each neighbouring pair. */
  lemma {:induction false} JoinLength(parts: seq<string>, sep: string)
    requires |parts| > 0
    ensures |Join(parts, sep)| == SumLengths(parts) + (|parts| - 1) * |sep|
  {
    if |parts| > 1 {
      JoinLength(parts[1..], sep);
    }
  }

  function SumLengths(parts: seq<string>): nat {
    if parts == [] then 0 else |parts[0]| + SumLengths(parts[1..])
  }

  /** The thread summary's count label. */
  datatype RepliesLabel = RepliesLabel(count: int, word: string)

  /** The thread summary under a message: present when the message has a last-reply date;
      it shows the reply count with `reply` for exactly one and `replies` otherwise, and
      shows no count when the message carries none. */
  function ThreadSummary(m: Message): (r: Option<Option<RepliesLabel>>)
    ensures r.Some? <==> Truthy(m.threadLastReplyDate)
    ensures r.Some? ==> (r.value.Some? <==> m.threadRepliesCount.Some?)
    ensures r.Some? && r.value.Some? ==>
      r.value.value.count == m.threadRepliesCount.value &&
      (r.value.value.word == "reply" <==> m.threadRepliesCount.value == 1) &&
      (r.value.value.word == "reply" || r.value.value.word == "replies")
  {
    if !Truthy(m.threadLastReplyDate) then None
    else if m.threadRepliesCount.None? then Some(None)
    else
      var n := m.threadRepliesCount.value;
      Some(Some(RepliesLabel(n, if n == 1 then "reply" else "replies")))
  }

  /** The hover actions of a row. */
  datatype Action = React(emoji: string) | ReplyInThread

  const Completed := "\U{2705}"
  const TakingALook := "\U{1F440}"
  const NicelyDone := "\U{1F44D}"

  /** The three quick reactions always, then reply-in-thread only outside a thread. */
  function RowActions(isThread: bool): (r: seq<Action>)
    ensures |r| == if isThread then 3 else 4
    ensures r[..3] == [React(Completed), React(TakingALook), React(NicelyDone)]
    ensures ReplyInThread in r <==> !isThread
  {
    [React(Completed), React(TakingALook), React(NicelyDone)] + if isThread then [] else [ReplyInThread]
  }

  /** What the list emits. */
  datatype Outbound =
    | MessageView(messageId: Option<string>)
    | ReactionEvent(emoji: string, id: string, userId: Option<string>, isThread: bool)

  /** A rendered list: the row element refs it has collected (`null` when React detaches a
      row, otherwise the row's message id) and the events it has sent. */
  class ListView {
    const userId: Option<string>
    // the list is rendered either with `isThread` set or without the prop
    // (components/message.tsx:372-387), so `false` stands for an absent prop: the
    // `reaction` event then carries `isThread: undefined`
    const isThread: bool
    var refs: seq<Option<string>>
    var sent: seq<Outbound>

    constructor (userId: Option<string>, isThread: bool)
      ensures this.userId == userId && this.isThread == isThread
      ensures refs == [] && sent == []
    {
      this.userId, this.isThread := userId, isThread;
      refs, sent := [], [];
    }

    /** A row's ref callback: push, never clear. */
    method RefCallback(element: Option<string>)
      modifies this`refs
      ensures refs == old(refs) + [element]
      ensures old(refs) <= refs
    {
      refs := refs + [element];
    }

    /** handleReaction: one `reaction` event with the list's user and thread flag. */
    method HandleReaction(emoji: string, id: string)
      modifies this`sent
      ensures sent == old(sent) + [ReactionEvent(emoji, id, userId, isThread)]
    {
      sent := sent + [ReactionEvent(emoji, id, userId, isThread)];
    }

    /** The observer callback: walk the entries and send `message-view` for each one that
        intersects and carries the seen attribute `'false'`. */
    method OnIntersect(entries: seq<Entry>)
      modifies this`sent
      ensures sent == old(sent) + ViewEmissions(entries)
    {
      var k := 0;
      while k < |entries|
        invariant 0 <= k <= |entries|
        invariant sent == old(sent) + ViewEmissions(entries[..k])
      {
        var e := entries[k];
        if e.isIntersecting {
          if e.seen == Some("false") {
            sent := sent + [MessageView(e.messageId)];
          }
        }
        ViewEmissionsStep(entries, k);
        k := k + 1;
      }
      assert entries[..k] == entries;
    }
  }
}

/** components/message.tsx: the message composer (the Enter handler and the payload it
    sends), the inbound `message` and `notification` listeners, the mention suggestions and
    the rule that shows the editor. The rich-text editor is reduced to its plain text and
    the HTML the converter produced from it. */
module Composer {
  import opened Common
  import opened Entities
  import AppProvider

  /** The editor's content: its plain text, and the HTML `convertToHTML` makes of it. */
  datatype Draft = Draft(plainText: string, html: string)

  const EmptyDraft := Draft("", "")

  /** `{ sender: userId, content: htmlContent }`. */
  datatype Body = Body(sender: Option<string>, content: string)

  /** The `message` event's payload. The channel fields are present only for a channel, the
      conversation fields only for a conversation; `collaborators` is written by either. */
  datatype Payload = Payload(
    message: Body,
    organisation: Option<string>,
    hasNotOpen: Option<seq<User>>,
    channelId: Option<string>,
    channelName: Option<string>,
    conversationId: Option<string>,
    collaborators: Option<seq<User>>,
    isSelf: Option<bool>)

  /** What the composer emits. */
  datatype Outbound =
    | ThreadMessage(message: Body, messageId: Option<string>, userId: Option<string>)
    | NewMessage(payload: Payload)

  /** `collaborators.filter((c) => c._id !== userId)`: with no user id, nobody is dropped. */
  function OthersThan(collaborators: seq<User>, userId: Option<string>): (r: seq<User>)
    ensures |r| <= |collaborators|
    ensures forall i :: 0 <= i < |r| ==> r[i] in collaborators && Some(r[i].id) != userId
  {
    if collaborators == [] then []
    else
      assert collaborators == [collaborators[0]] + collaborators[1..];
      var rest := OthersThan(collaborators[1..], userId);
      if Some(collaborators[0].id) != userId then [collaborators[0]] + rest else rest
  }

  /** Every collaborator other than the sender survives the filter. */
  lemma {:induction false} OthersThanKeeps(collaborators: seq<User>, userId: Option<string>, u: User)
    requires u in collaborators && Some(u.id) != userId
    ensures u in OthersThan(collaborators, userId)
  {
    if collaborators[0] != u {
      OthersThanKeeps(collaborators[1..], userId, u);
    }
  }

  /** Filtering keeps the survivors in their original order. */
  lemma {:induction false} OthersThanAppend(a: seq<User>, b: seq<User>, userId: Option<string>)
    ensures OthersThan(a + b, userId) == OthersThan(a, userId) + OthersThan(b, userId)
  {
    if a == [] {
      assert a + b == b;
    } else {
      assert (a + b)[0] == a[0] && (a + b)[1..] == a[1..] + b;
      OthersThanAppend(a[1..], b, userId);
    }
  }

  /** `collaborators[i]?._id`. */
  function IdAt(collaborators: seq<User>, i: nat): Option<string> {
    if i < |collaborators| then Some(collaborators[i].id) else None
  }

  /** `collaborators[0]?._id === collaborators[1]?._id`. */
  predicate IsSelf(collaborators: seq<User>) {
    IdAt(collaborators, 0) == IdAt(collaborators, 1)
  }

  /** A conversation is "self" when its first two collaborators are the same user, and also
      when it has no collaborators at all (both sides read `undefined`). */
  lemma IsSelfCases(collaborators: seq<User>)
    ensures IsSelf(collaborators) <==>
      |collaborators| == 0 || (|collaborators| >= 2 && collaborators[0].id == collaborators[1].id)
  {
  }

  /** The `message` payload built from the selection. */
  function MessagePayload(selected: Option<Chat>, userId: Option<string>, html: string): (p: Payload)
    ensures p.message == Body(userId, html)
    ensures p.organisation == if selected.Some? then Some(selected.value.organisation) else None
    ensures p.hasNotOpen == if selected.Some? then Some(OthersThan(selected.value.collaborators, userId)) else None
    ensures p.channelId == if selected.Some? && selected.value.isChannel then Some(selected.value.id) else None
    ensures p.channelName == if selected.Some? && selected.value.isChannel then Some(selected.value.name) else None
    ensures p.conversationId ==
      if selected.Some? && selected.value.isConversation then Some(selected.value.id) else None
    ensures p.collaborators.Some? <==>
      selected.Some? && (selected.value.isChannel || selected.value.isConversation)
    ensures p.collaborators.Some? ==> p.collaborators == Some(selected.value.collaborators)
    ensures p.isSelf.Some? <==> selected.Some? && selected.value.isConversation
    ensures p.isSelf.Some? ==> p.isSelf.value == IsSelf(selected.value.collaborators)
  {
    match selected
    case None => Payload(Body(userId, html), None, None, None, None, None, None, None)
    case Some(s) =>
      Payload(
        Body(userId, html),
        Some(s.organisation),
        Some(OthersThan(s.collaborators, userId)),
        if s.isChannel then Some(s.id) else None,
        if s.isChannel then Some(s.name) else None,
        if s.isConversation then Some(s.id) else None,
        if s.isChannel || s.isConversation then Some(s.collaborators) else None,
        if s.isConversation then Some(IsSelf(s.collaborators)) else None)
  }

  /** The `hasNotOpen` list names exactly the collaborators other than the sender, in
      their original order. */
  lemma PayloadRecipients(selected: Chat, userId: Option<string>, html: string, u: User)
    ensures var p := MessagePayload(Some(selected), userId, html);
      p.hasNotOpen.Some? &&
      (u in p.hasNotOpen.value <==> u in selected.collaborators && Some(u.id) != userId)
  {
    if u in selected.collaborators && Some(u.id) != userId {
      OthersThanKeeps(selected.collaborators, userId, u);
    }
  }

  /** The one event a successful Enter sends: a thread reply inside a thread, else a message. */
  function Outgoing(isThread: bool, threadId: Option<string>, selected: Option<Chat>,
                    userId: Option<string>, html: string): (o: Outbound)
    ensures o.ThreadMessage? <==> isThread
    ensures o.ThreadMessage? ==>
      o.messageId == threadId && o.message == Body(userId, html) && o.userId == userId
    ensures o.NewMessage? ==> o.payload == MessagePayload(selected, userId, html)
  {
    if isThread then ThreadMessage(Body(userId, html), threadId, userId)
    else NewMessage(MessagePayload(selected, userId, html))
  }

  /** handleReturn's decision: Enter without Shift, some non-blank text, and no unresolved
      mention (`@<` in the HTML). */
  predicate Accepts(key: string, shiftKey: bool, draft: Draft) {
    key == "Enter" && !shiftKey && Trim(draft.plainText) != "" && !Includes(draft.html, "@<")
  }

  /** Blank text is never sent, whatever the key. */
  lemma BlankNeverSent(key: string, shiftKey: bool, draft: Draft)
    requires forall i :: 0 <= i < |draft.plainText| ==> IsWhitespace(draft.plainText[i])
    ensures !Accepts(key, shiftKey, draft)
  {
    TrimEmptyIffBlank(draft.plainText);
  }

  /** The inbound `message` filter: append when the event's collaborators include the user
      or the channel's collaborators include the user (compared with `''` when undefined). */
  predicate InboundAccepted(collaborators: Option<seq<string>>, userId: Option<string>,
                            channelCollaborators: Option<seq<string>>) {
    || (collaborators.Some? && userId.Some? && userId.value in collaborators.value)
    || (channelCollaborators.Some? && userId.GetOr("") in channelCollaborators.value)
  }

  /** The list after an inbound `message`: the new message at the end when accepted. */
  function AfterInbound(messages: seq<Message>, newMessage: Message, accepted: bool): (r: seq<Message>)
    ensures accepted ==> |r| == |messages| + 1 && r[..|messages|] == messages && r[|messages|] == newMessage
    ensures !accepted ==> r == messages
  {
    if accepted then messages + [newMessage] else messages
  }

  /** The notification a `notification` event shows. */
  datatype Notice =
    | ChannelNotice(sender: Option<string>, channelName: string)
    | DirectNotice(sender: Option<string>)

  /** Some conversation's collaborator ids all appear among the event's collaborator ids
      (`conversationCollaborators?.some((ids) => ids.every((c) => collaboratorsId.includes(c)))`). */
  predicate SomeConversationCovered(conversationIds: Option<seq<seq<string>>>, eventIds: seq<string>) {
    conversationIds.Some? &&
    exists k :: 0 <= k < |conversationIds.value| &&
      forall j :: 0 <= j < |conversationIds.value[k]| ==> conversationIds.value[k][j] in eventIds
  }

  /** The notification decision: nothing for another organisation; the channel notice when
      the user is among the event's collaborators and a channel name is given; otherwise
      the direct notice when some conversation is covered; at most one notice. */
  function Notification(organisationId: Option<string>, userId: Option<string>,
                        conversationIds: Option<seq<seq<string>>>, eventOrganisation: string,
                        eventCollaborators: seq<User>, channelName: Option<string>,
                        sender: Option<string>): (n: Option<Notice>)
    ensures n.Some? ==> organisationId == Some(eventOrganisation)
    ensures n.Some? && n.value.ChannelNotice? <==>
      organisationId == Some(eventOrganisation) && userId.Some? && userId.value in Ids(eventCollaborators)
      && Truthy(channelName)
    ensures n.Some? && n.value.DirectNotice? <==>
      organisationId == Some(eventOrganisation)
      && !(userId.Some? && userId.value in Ids(eventCollaborators) && Truthy(channelName))
      && SomeConversationCovered(conversationIds, Ids(eventCollaborators))
  {
    var eventIds := Ids(eventCollaborators);
    if organisationId != Some(eventOrganisation) then None
    else if userId.Some? && userId.value in eventIds && Truthy(channelName) then
      Some(ChannelNotice(sender, channelName.value))
    else if SomeConversationCovered(conversationIds, eventIds) then Some(DirectNotice(sender))
    else None
  }

  /** A conversation with no collaborators is covered by any event. */
  lemma EmptyConversationCovers(conversationIds: seq<seq<string>>, k: nat, eventIds: seq<string>)
    requires k < |conversationIds| && conversationIds[k] == []
    ensures SomeConversationCovered(Some(conversationIds), eventIds)
  {
  }

  /** The mention suggestions' values: one per co-worker (its username), then `channel`
      and `here`; undefined when the co-workers are. */
  function Suggestions(coWorkers: Option<seq<User>>): (r: Option<seq<Option<string>>>)
    ensures r.Some? <==> coWorkers.Some?
    ensures r.Some? ==> |r.value| == |coWorkers.value| + 2
    ensures r.Some? ==> forall i :: 0 <= i < |coWorkers.value| ==> r.value[i] == coWorkers.value[i].username
    ensures r.Some? ==> r.value[|r.value| - 2] == Some("channel") && r.value[|r.value| - 1] == Some("here")
  {
    match coWorkers
    case None => None
    case Some(users) => Some(Usernames(users) + [Some("channel"), Some("here")])
  }

  /** `users.map((u) => u.username)`. */
  function Usernames(users: seq<User>): (r: seq<Option<string>>)
    ensures |r| == |users|
    ensures forall i :: 0 <= i < |users| ==> r[i] == users[i].username
  {
    if users == [] then [] else [users[0].username] + Usernames(users[1..])
  }

  /** The editor is shown when the user is among the channel's collaborators (compared with
      `''` when there is no user id) or the selection is not a channel. */
  predicate EditorVisible(channelCollaborators: Option<seq<string>>, userId: Option<string>,
                          selected: Option<Chat>) {
    (channelCollaborators.Some? && userId.GetOr("") in channelCollaborators.value)
    || !(selected.Some? && selected.value.isChannel)
  }

  /** With the collaborator ids the provider derives from a selected channel, the editor is
      shown exactly when one of the channel's collaborators carries the user's id (the empty
      id when there is none); outside a channel it is always shown. */
  lemma EditorVisibleInChannel(selected: Chat, userId: Option<string>)
    ensures selected.isChannel ==>
      (EditorVisible(Some(Ids(selected.collaborators)), userId, Some(selected)) <==>
       exists i :: 0 <= i < |selected.collaborators| && selected.collaborators[i].id == userId.GetOr(""))
    ensures !selected.isChannel ==> EditorVisible(Some(Ids(selected.collaborators)), userId, Some(selected))
  {
    IdsMembership(selected.collaborators, userId.GetOr(""));
  }

  /** The composer: the editor's content and the events it has sent. The selection, the
      user and the message list belong to the shared provider state. */
  class MessageComposer {
    const app: AppProvider.AppState
    const isThread: bool
    const threadId: Option<string>
    var editor: Draft
    var sent: seq<Outbound>

    constructor (app: AppProvider.AppState, isThread: bool, threadId: Option<string>)
      ensures this.app == app && this.isThread == isThread && this.threadId == threadId
      ensures editor == EmptyDraft && sent == []
    {
      this.app, this.isThread, this.threadId := app, isThread, threadId;
      editor, sent := EmptyDraft, [];
    }

    /** The editor's onChange. */
    method Edit(draft: Draft)
      modifies this`editor
      ensures editor == draft
    {
      editor := draft;
    }

    /** handleReturn: when accepted, send exactly one event, empty the editor and return
        true; otherwise send nothing, keep the editor and return false. */
    method HandleReturn(key: string, shiftKey: bool) returns (handled: bool)
      modifies this`editor, this`sent
      ensures handled <==> Accepts(key, shiftKey, old(editor))
      ensures handled ==>
        && sent == old(sent) + [Outgoing(isThread, threadId, app.selected, ProfileId(app.data), old(editor).html)]
        && editor == EmptyDraft
      ensures !handled ==> sent == old(sent) && editor == old(editor)
    {
      handled := false;
      if key == "Enter" && !shiftKey {
        if Trim(editor.plainText) != "" {
          if Includes(editor.html, "@<") {
            return false;
          }
          var out := Outgoing(isThread, threadId, app.selected, ProfileId(app.data), editor.html);
          sent := sent + [out];
          editor := EmptyDraft;
          handled := true;
        }
      }
    }

    /** The inbound `message` listener. It is registered once on mount, so `userId` and
        `channelCollaborators` are the values its closure captured then. An accepted message
        is appended through a state updater that spreads the previous list; when that list
        is undefined the spread throws (`threw`) and the list is not updated. */
    method OnMessage(collaborators: Option<seq<string>>, newMessage: Message,
                     userId: Option<string>, channelCollaborators: Option<seq<string>>)
      returns (threw: bool)
      modifies app`messages
      ensures threw <==> InboundAccepted(collaborators, userId, channelCollaborators) && old(app.messages).None?
      ensures old(app.messages).Some? ==>
        app.messages == Some(AfterInbound(old(app.messages).value, newMessage,
                                          InboundAccepted(collaborators, userId, channelCollaborators)))
      ensures old(app.messages).None? ==> app.messages == None
    {
      threw := false;
      if InboundAccepted(collaborators, userId, channelCollaborators) {
        if app.messages.None? {
          return true;
        }
        app.messages := Some(app.messages.value + [newMessage]);
      }
    }
  }
}

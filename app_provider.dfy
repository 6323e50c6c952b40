/** providers/app-provider.tsx: the client's shared state and the rules by which socket
    events and query results rewrite it. Queries are modelled by their `enabled` predicates
    and their `onSuccess` callbacks; socket listeners by handler methods. */
module AppProvider {
  import opened Common
  import opened Entities

  /** updateUserStatus's list: every conversation created by `id` gets the new online flag;
      every other field and every other conversation stays as it was. */
  function WithPresence(conversations: seq<Chat>, id: string, isOnline: bool): (r: seq<Chat>)
    ensures |r| == |conversations|
    ensures forall i :: 0 <= i < |r| ==> r[i] == PresenceOf(conversations[i], id, isOnline)
  {
    if conversations == [] then []
    else
      var rest := WithPresence(conversations[1..], id, isOnline);
      assert forall i :: 1 <= i < |conversations| ==> conversations[i] == conversations[1..][i - 1];
      [PresenceOf(conversations[0], id, isOnline)] + rest
  }

  /** One conversation under updateUserStatus: created by `id`, it gets the new flag and
      keeps every other field; otherwise it is unchanged. */
  function PresenceOf(c: Chat, id: string, isOnline: bool): (d: Chat)
    ensures c.createdBy == id ==> d.isOnline == isOnline
    ensures c.createdBy != id ==> d == c
    ensures d.(isOnline := c.isOnline) == c
  {
    if c.createdBy == id then c.(isOnline := isOnline) else c
  }

  /** The id-keyed rewrite used by the message-updated and channel-updated listeners: every
      entry whose id matches becomes the new value; every other entry stays in place. */
  function Replace<T>(xs: seq<T>, key: T -> string, id: string, x: T): (r: seq<T>)
    ensures |r| == |xs|
    ensures forall i :: 0 <= i < |r| && key(xs[i]) == id ==> r[i] == x
    ensures forall i :: 0 <= i < |r| && key(xs[i]) != id ==> r[i] == xs[i]
  {
    if xs == [] then []
    else [if key(xs[0]) == id then x else xs[0]] + Replace(xs[1..], key, id, x)
  }

  function MessageId(m: Message): string { m.id }

  function ChatId(c: Chat): string { c.id }

  /** The convo-updated rewrite: only `hasNotOpen` of the conversation with the route's id
      is overwritten. */
  function PatchHasNotOpen(conversations: seq<Chat>, id: string, hasNotOpen: seq<User>): (r: seq<Chat>)
    ensures |r| == |conversations|
    ensures forall i :: 0 <= i < |r| ==> r[i] == PatchOf(conversations[i], id, hasNotOpen)
  {
    if conversations == [] then []
    else
      var rest := PatchHasNotOpen(conversations[1..], id, hasNotOpen);
      assert forall i :: 1 <= i < |conversations| ==> conversations[i] == conversations[1..][i - 1];
      [PatchOf(conversations[0], id, hasNotOpen)] + rest
  }

  /** One conversation under the convo-updated rewrite: with the route's id, only its
      `hasNotOpen` is overwritten; otherwise it is unchanged. */
  function PatchOf(c: Chat, id: string, hasNotOpen: seq<User>): (d: Chat)
    ensures c.id == id ==> d.hasNotOpen == hasNotOpen
    ensures c.id != id ==> d == c
    ensures d.(hasNotOpen := c.hasNotOpen) == c
  {
    if c.id == id then c.(hasNotOpen := hasNotOpen) else c
  }

  /** Replaying an update with a value that keeps its id changes nothing more. */
  lemma ReplaceIdempotent<T>(xs: seq<T>, key: T -> string, id: string, x: T)
    requires key(x) == id
    ensures Replace(Replace(xs, key, id, x), key, id, x) == Replace(xs, key, id, x)
  {
  }

  /** An update for an id that is not in the list leaves the list as it was. */
  lemma ReplaceAbsent<T>(xs: seq<T>, key: T -> string, id: string, x: T)
    requires forall i :: 0 <= i < |xs| ==> key(xs[i]) != id
    ensures Replace(xs, key, id, x) == xs
  {
  }

  /** The channel query: `enabled: !!id && channel`. */
  predicate ChannelQueryOn(routeId: Option<string>, channel: bool) {
    Truthy(routeId) && channel
  }

  /** The conversation query: `enabled: !!id && channel === false && pathname.startsWith('/c')`. */
  predicate ConversationQueryOn(routeId: Option<string>, channel: bool, pathname: string) {
    Truthy(routeId) && !channel && StartsWith(pathname, "/c")
  }

  /** The organisation query: `enabled: !!organisationId && pathname.startsWith('/c')`. */
  predicate OrganisationQueryOn(organisationId: Option<string>, pathname: string) {
    Truthy(organisationId) && StartsWith(pathname, "/c")
  }

  /** The channel query and the conversation query are never enabled together, and with a
      route id under `/c` exactly one of them is. */
  lemma QueriesExclusive(routeId: Option<string>, channel: bool, pathname: string)
    ensures !(ChannelQueryOn(routeId, channel) && ConversationQueryOn(routeId, channel, pathname))
    ensures Truthy(routeId) && StartsWith(pathname, "/c") ==>
      ChannelQueryOn(routeId, channel) || ConversationQueryOn(routeId, channel, pathname)
  {
  }

  /** useAppContext: the context, or the error it throws outside a provider. */
  function UseAppContext<C>(context: Option<C>): (r: Result<C, string>)
    ensures r.Ok? <==> context.Some?
    ensures r.Ok? ==> r.value == context.value
    ensures r.Err? ==> r.error == "useAppContext must be used within a AppContextProvider"
  {
    match context
    case Some(c) => Ok(c)
    case None => Err("useAppContext must be used within a AppContextProvider")
  }

  /** The room listener the [data, id] effect registered, with the `data` and route `id`
      its closure captured. */
  datatype RoomListener =
    | NoRoomListener
    | ChannelUpdates(id: string, data: Data)
    | ConvoUpdates(id: string, data: Data)

  /** What the provider emits on the socket. */
  datatype Outbound =
    | ChannelOpen(id: string, userId: string)
    | ConvoOpen(id: string, userId: string)

  /** The provider's state. `routeId`, `threadId` and `pathname` come from the router. */
  class AppState {
    const routeId: Option<string>
    const threadId: Option<string>
    const pathname: string
    var organisationId: Option<string>
    var channel: bool
    var data: Option<Data>
    var conversations: Option<seq<Chat>>
    var channels: Option<seq<Chat>>
    var messages: Option<seq<Message>>
    var threadMessages: Option<seq<Message>>
    var selected: Option<Chat>
    var selectedMessage: Option<Message>
    var canQueryChannelMessages: bool
    var canQueryConversationMessages: bool
    var channelCollaborators: Option<seq<string>>
    /** The `data` captured by the presence listeners, when they are registered. */
    var presenceData: Option<Data>
    var roomListener: RoomListener
    var sent: seq<Outbound>

    /** The first render: everything undefined, `channel` false, both fetch flags false, and
        `channelCollaborators` the one-element list `['']`. */
    constructor (routeId: Option<string>, threadId: Option<string>, pathname: string)
      ensures this.routeId == routeId && this.threadId == threadId && this.pathname == pathname
      ensures organisationId == None && !channel && data == None
      ensures conversations == None && channels == None && messages == None && threadMessages == None
      ensures selected == None && selectedMessage == None
      ensures !canQueryChannelMessages && !canQueryConversationMessages
      ensures channelCollaborators == Some([""])
      ensures presenceData == None && roomListener == NoRoomListener && sent == []
    {
      this.routeId, this.threadId, this.pathname := routeId, threadId, pathname;
      organisationId, channel, data := None, false, None;
      conversations, channels, messages, threadMessages := None, None, None, None;
      selected, selectedMessage := None, None;
      canQueryChannelMessages, canQueryConversationMessages := false, false;
      channelCollaborators := Some([""]);
      presenceData, roomListener, sent := None, NoRoomListener, [];
    }

    predicate ChannelQueryEnabled()
      reads this
    {
      ChannelQueryOn(routeId, channel)
    }

    predicate ConversationQueryEnabled()
      reads this
    {
      ConversationQueryOn(routeId, channel, pathname)
    }

    predicate OrganisationQueryEnabled()
      reads this
    {
      OrganisationQueryOn(organisationId, pathname)
    }

    /** The thread query: `enabled: !!threadId`. */
    predicate ThreadQueryEnabled()
      reads this
    {
      Truthy(threadId)
    }

    /** The effect on the route id, the message lists and the selected message reads the
        organisation id and the channel flag from local storage; the flag is true only for
        the stored string `'true'`. Selecting a channel or a conversation stores the flag
        and then clears the messages, so this effect re-runs and `channel` follows the
        selection. */
    method RestoreFromStorage(storedOrganisationId: Option<string>, storedChannel: Option<string>)
      modifies this`organisationId, this`channel
      ensures organisationId == storedOrganisationId
      ensures channel <==> storedChannel == Some("true")
    {
      organisationId := storedOrganisationId;
      channel := storedChannel == Some("true");
    }

    /** The organisation query's onSuccess. */
    method OrganisationLoaded(d: Option<Data>)
      modifies this`data
      ensures data == d
    {
      data := d;
    }

    /** The [data] effect: copy the lists out of `data` and (re)register the presence
        listeners with this `data`; without data the listeners stay removed. */
    method DataEffect()
      modifies this`channels, this`conversations, this`presenceData
      ensures data.Some? ==>
        channels == Some(data.value.channels) && conversations == Some(data.value.conversations)
      ensures data.None? ==> channels == old(channels) && conversations == old(conversations)
      ensures presenceData == data
    {
      if data.Some? {
        channels := Some(data.value.channels);
        conversations := Some(data.value.conversations);
      }
      presenceData := data;
    }

    /** A user-join or user-leave event: updateUserStatus over the captured `data`'s
        conversations (not the current `conversations`). */
    method OnPresence(id: string, isOnline: bool)
      modifies this`conversations
      ensures presenceData.Some? ==>
        conversations == Some(WithPresence(presenceData.value.conversations, id, isOnline))
      ensures presenceData.None? ==> conversations == old(conversations)
    {
      if presenceData.Some? {
        conversations := Some(WithPresence(presenceData.value.conversations, id, isOnline));
      }
    }

    /** The channel query's onSuccess: only while `channel` holds, select the channel and
        raise the channel-messages fetch flag. */
    method ChannelLoaded(loaded: Option<Chat>)
      modifies this`selected, this`canQueryChannelMessages
      ensures channel ==> selected == loaded && canQueryChannelMessages
      ensures !channel ==>
        selected == old(selected) && canQueryChannelMessages == old(canQueryChannelMessages)
    {
      if channel {
        selected := loaded;
        canQueryChannelMessages := true;
      }
    }

    /** The channel-messages query's onSuccess: store the messages, lower the flag. */
    method ChannelMessagesLoaded(loaded: Option<seq<Message>>)
      modifies this`messages, this`canQueryChannelMessages
      ensures messages == loaded && !canQueryChannelMessages
    {
      messages := loaded;
      canQueryChannelMessages := false;
    }

    /** The conversation query's onSuccess: only while `channel` is false. */
    method ConversationLoaded(loaded: Option<Chat>)
      modifies this`selected, this`canQueryConversationMessages
      ensures !channel ==> selected == loaded && canQueryConversationMessages
      ensures channel ==>
        selected == old(selected) && canQueryConversationMessages == old(canQueryConversationMessages)
    {
      if !channel {
        selected := loaded;
        canQueryConversationMessages := true;
      }
    }

    /** The conversation-messages query's onSuccess. */
    method ConversationMessagesLoaded(loaded: Option<seq<Message>>)
      modifies this`messages, this`canQueryConversationMessages
      ensures messages == loaded && !canQueryConversationMessages
    {
      messages := loaded;
      canQueryConversationMessages := false;
    }

    /** The thread query's onSuccess. */
    method ThreadMessagesLoaded(loaded: Option<seq<Message>>)
      modifies this`threadMessages
      ensures threadMessages == loaded
    {
      threadMessages := loaded;
    }

    /** message-updated: replace the selected message when its id matches; then rewrite
        the thread list when `isThread`, the message list otherwise, never both. */
    method OnMessageUpdated(id: string, message: Message, isThread: bool)
      modifies this`selectedMessage, this`threadMessages, this`messages
      ensures selectedMessage == if old(selectedMessage).Some? && old(selectedMessage).value.id == id
                                 then Some(message) else old(selectedMessage)
      ensures isThread ==> messages == old(messages)
      ensures isThread && old(threadMessages).Some? ==>
        threadMessages == Some(Replace(old(threadMessages).value, MessageId, id, message))
      ensures isThread && old(threadMessages).None? ==> threadMessages == None
      ensures !isThread ==> threadMessages == old(threadMessages)
      ensures !isThread && old(messages).Some? ==>
        messages == Some(Replace(old(messages).value, MessageId, id, message))
      ensures !isThread && old(messages).None? ==> messages == None
    {
      if selectedMessage.Some? && selectedMessage.value.id == id {
        selectedMessage := Some(message);
      }
      if isThread {
        if threadMessages.Some? {
          threadMessages := Some(Replace(threadMessages.value, MessageId, id, message));
        }
      } else {
        if messages.Some? {
          messages := Some(Replace(messages.value, MessageId, id, message));
        }
      }
    }

    /** The [data, id] effect: the old room listeners are removed; with data and a route id
        it announces the open room (channel-open or convo-open, by the `channel` flag) and
        registers the matching update listener over this `data` and `id`. */
    method RoomEffect()
      modifies this`roomListener, this`sent
      ensures data.Some? && Truthy(routeId) && channel ==>
        && sent == old(sent) + [ChannelOpen(routeId.value, data.value.profile.id)]
        && roomListener == ChannelUpdates(routeId.value, data.value)
      ensures data.Some? && Truthy(routeId) && !channel ==>
        && sent == old(sent) + [ConvoOpen(routeId.value, data.value.profile.id)]
        && roomListener == ConvoUpdates(routeId.value, data.value)
      ensures !(data.Some? && Truthy(routeId)) ==> sent == old(sent) && roomListener == NoRoomListener
    {
      roomListener := NoRoomListener;
      if data.Some? && Truthy(routeId) {
        if channel {
          sent := sent + [ChannelOpen(routeId.value, data.value.profile.id)];
          roomListener := ChannelUpdates(routeId.value, data.value);
        } else {
          sent := sent + [ConvoOpen(routeId.value, data.value.profile.id)];
          roomListener := ConvoUpdates(routeId.value, data.value);
        }
      }
    }

    /** channel-updated: the captured `data`'s channels with the route's channel replaced. */
    method OnChannelUpdated(updated: Chat)
      modifies this`channels
      ensures roomListener.ChannelUpdates? ==>
        channels == Some(Replace(roomListener.data.channels, ChatId, roomListener.id, updated))
      ensures !roomListener.ChannelUpdates? ==> channels == old(channels)
    {
      if roomListener.ChannelUpdates? {
        channels := Some(Replace(roomListener.data.channels, ChatId, roomListener.id, updated));
      }
    }

    /** convo-updated: the captured `data`'s conversations with only `hasNotOpen` of the
        route's conversation overwritten. */
    method OnConvoUpdated(hasNotOpen: seq<User>)
      modifies this`conversations
      ensures roomListener.ConvoUpdates? ==>
        conversations == Some(PatchHasNotOpen(roomListener.data.conversations, roomListener.id, hasNotOpen))
      ensures !roomListener.ConvoUpdates? ==> conversations == old(conversations)
    {
      if roomListener.ConvoUpdates? {
        conversations := Some(PatchHasNotOpen(roomListener.data.conversations, roomListener.id, hasNotOpen));
      }
    }

    /** The [selected] effect: `channelCollaborators` becomes the ids of the selection's
        collaborators in order, or undefined when nothing is selected (as on mount). */
    method SelectedEffect()
      modifies this`channelCollaborators
      ensures selected.Some? ==> channelCollaborators == Some(Ids(selected.value.collaborators))
      ensures selected.None? ==> channelCollaborators == None
    {
      if selected.Some? {
        channelCollaborators := Some(Ids(selected.value.collaborators));
      } else {
        channelCollaborators := None;
      }
    }
  }
}

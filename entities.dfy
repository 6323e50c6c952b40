/** The records the client receives from the server (utils/interfaces.ts), reduced to the
    fields the modelled components read or write. */
module Entities {
  import opened Common

  /** A workspace member. */
  datatype User = User(id: string, username: Option<string>, email: Option<string>)

  /** A channel or a conversation. Both interfaces carry these fields; `isChannel` and
      `isConversation` tell them apart, and `createdBy`/`isOnline` only mean something for a
      conversation. */
  datatype Chat = Chat(
    id: string,
    name: string,
    collaborators: seq<User>,
    isChannel: bool,
    isConversation: bool,
    organisation: string,
    createdBy: string,
    isOnline: bool,
    hasNotOpen: seq<User>)

  /** One emoji reaction on a message and who gave it. */
  datatype Reaction = Reaction(id: string, emoji: string, reactedToBy: seq<User>)

  /** A message or a thread reply; `kind` is the optional `type` field (`'date'` marks a
      day divider in a list). */
  datatype Message = Message(
    id: string,
    kind: Option<string>,
    content: Option<string>,
    sender: Option<User>,
    hasRead: Option<bool>,
    reactions: Option<seq<Reaction>>,
    threadLastReplyDate: Option<string>,
    threadRepliesCount: Option<int>)

  /** The organisation payload: the signed-in profile, co-workers, and the sidebar lists. */
  datatype Data = Data(
    id: string,
    profile: User,
    coWorkers: seq<User>,
    conversations: seq<Chat>,
    channels: seq<Chat>)

  /** `users.map((u) => u._id)`. */
  function Ids(users: seq<User>): (r: seq<string>)
    ensures |r| == |users|
    ensures forall i :: 0 <= i < |users| ==> r[i] == users[i].id
  {
    if users == [] then [] else [users[0].id] + Ids(users[1..])
  }

  /** An id is among the projected ids exactly when some user carries it. */
  lemma IdsMembership(users: seq<User>, id: string)
    ensures id in Ids(users) <==> exists i :: 0 <= i < |users| && users[i].id == id
  {
    if id in Ids(users) {
      var k :| 0 <= k < |Ids(users)| && Ids(users)[k] == id;
      assert users[k].id == id;
    }
  }

  /** `organisationData?.profile?._id`: the signed-in user's id, when the organisation is loaded. */
  function ProfileId(data: Option<Data>): (r: Option<string>)
    ensures r.Some? <==> data.Some?
    ensures r.Some? ==> r.value == data.value.profile.id
  {
    if data.Some? then Some(data.value.profile.id) else None
  }

  /** `selected?._id`. */
  function SelectedId(selected: Option<Chat>): (r: Option<string>)
    ensures r.Some? <==> selected.Some?
    ensures r.Some? ==> r.value == selected.value.id
  {
    if selected.Some? then Some(selected.value.id) else None
  }

  /** JavaScript truthiness of an optional string: defined and not empty. */
  predicate Truthy(s: Option<string>) {
    s.Some? && s.value != ""
  }

  /** `s.startsWith(prefix)`. */
  predicate StartsWith(s: string, prefix: string) {
    |prefix| <= |s| && s[..|prefix|] == prefix
  }
}

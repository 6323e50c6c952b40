# slack-clone-client: a Dafny model of its client-side rules

This project models the decision and list-update rules of the slack-clone web client, and proves properties of them. The rules cover:

- the huddle (a one-to-one audio and video call over WebRTC, signalled through socket.io events);
- the shared provider state and the socket events that rewrite it;
- the message composer and the inbound `message` and `notification` listeners;
- the channel header's invite dialog and join banner;
- the message list's rendering rules and read receipts;
- the e-mail tag input;
- the colour palette helpers.

One Dafny module per source file:

| module | file | models |
|---|---|---|
| `Palette` | `palette.dfy` | `utils/helpers.ts`: lookup with JavaScript's truncating `%` |
| `Validators` | `validators.dfy` | the e-mail rule `/^\S+@\S+$/` and the six-character code rule |
| `TagsInput` | `tags_input.dfy` | `components/tags-input.tsx`, as class `TagInput` |
| `Entities` | `entities.dfy` | users, chats, messages and organisation data; small projections |
| `AppProvider` | `app_provider.dfy` | `providers/app-provider.tsx`: the rewrites as functions, the state slots as class `AppState` |
| `Composer` | `composer.dfy` | `components/message.tsx`: payload, filters and decisions as functions, the composer as class `MessageComposer` |
| `MessageLayout` | `message_layout.dfy` | `components/pages/message-layout.tsx`: the invite options and rule, and class `ChannelHeader` |
| `MessageList` | `message_list.dfy` | `components/message-list.tsx`: render decisions, and class `ListView` (refs and emits) |
| `HuddleModel` | `huddle_model.dfy` | `components/huddle.tsx` as a state machine over a `Session` value, with its invariants |
| `HuddleSession` | `huddle_session.dfy` | `components/huddle.tsx` as the component holds it: class `Huddle`, each method proved to move its fields exactly as the matching `HuddleModel` transition |

`Common` (`common.dfy`) holds `Option`, `Result`, and JavaScript's `trim`, `includes` and white-space test.

How the huddle is modelled:

- Every browser call (getUserMedia, `new RTCPeerConnection`, createOffer, setRemoteDescription, close, ...) and every socket emit is an `Effect`, appended to the session's `log` in the order the handlers make them.
- Whether a call succeeds, and what it yields, is a parameter of the transition: `SetupOutcome`, `OfferOutcome` and `AnswerOutcome`.
- A peer connection is a `Handle`: its position among all connections created. `peers[h]` is the key connection `h` was created for.
- `pcRefs` is the registry. `pcOrder` lists the registry's keys in insertion order, which is the order `for ... in` visits them.
- The video container is a list of videos. `LocalPreview` is the `<video>` React renders; `RemoteVideo` is one appended by a track event.
- `Valid` is the invariant of every reachable session:
  - every registry entry names a connection created for its key;
  - while the huddle is on, the container holds the preview and at most one remote video;
  - while it is off, there is no container and no preview.
- `RunInvariants` proves, for any sequence of events, that `Valid` holds, that no registry key disappears, and that the log only grows.

Where JavaScript semantics matter, the model writes them out:

- `%` truncates toward zero, and `-0` names element 0.
- A property read through `?.` on `undefined` yields `undefined` (`Option`).
- A method call on `undefined` throws, and the surrounding `try` swallows the rest.
- Spreading `undefined` into an array throws. A state updater that does it leaves the state as it was, and the method that runs it returns `threw` (`Composer.MessageComposer.OnMessage`, `MessageLayout.ChannelHeader.JoinSucceeded`).
- React writes a boolean `data-` attribute as the string `"true"` or `"false"`.
- `Array.prototype.join` prints an undefined entry as the empty string.

Where the code and the design description of the system disagree, the model follows the code:

- **Room leave.** The design has a `room-leave` close and delete the leaving peer's connection. The code only removes the second `<video>` (`HuddleModel.OnRoomLeave`).
- **Disabling.** The design has disabling close every connection. Switching off closes only the user's own connection, and only when a preview stream is showing (`HuddleModel.SwitchOffClosesOnlyOwn`). The other connections are closed by the media effect's cleanup, which runs when that effect next runs.
- **Denied media.** The design leaves a huddle whose media is denied in the off state, with nothing sent. The code keeps the switch on and still emits `join-room` (`HuddleModel.SetupWebRTC`).
- **Offer without a connection.** `initiateCall` for a user with no connection still emits an `offer`, with an undefined description (`HuddleModel.CallEffects`).
- **ICE listener arguments.** The `ice-candidate` listener takes two positional arguments, but the peer sends one object. The lookup key is therefore the second argument, or `"undefined"` when there is none (`HuddleModel.IceMismatch`). The local candidate's `senderUserId` is the key the connection was created under, which for a remote peer is the remote user's id (`HuddleModel.LocalCandidateSender`).
- **Negative palette indices.** A negative index gives no colour, except that a negative multiple of the palette's length gives the first colour (`Palette.NegativeIndex`).
- **Undefined `channelCollaborators`.** The provider's `channelCollaborators` starts as `['']` but becomes undefined whenever nothing is selected (`AppProvider.AppState.SelectedEffect`).
- **`isSelf` with no collaborators.** `isSelf` is also true for a conversation with no collaborators (`Composer.IsSelfCases`).
- **Invite without validation.** The invite is posted without consulting the `userIds` rule (`MessageLayout.ChannelHeader.SendInvite`).
- **Captured values.** A listener reads the values its effect captured when it was registered, and it is registered again only when that effect re-runs:
  - the inbound `message` filter is registered once on mount, so it keeps the first render's user id and channel collaborators (`Composer.MessageComposer.OnMessage`);
  - the presence listeners are registered again on every change of `data`, and read that `data` (`AppProvider.AppState.OnPresence`);
  - the room listeners are registered again on every change of `data` or the route id, and read those (`AppProvider.AppState.OnChannelUpdated`, `AppProvider.AppState.OnConvoUpdated`).

## Model

| member | source | states |
|---|---|---|
| Palette.JsRem | utils/helpers.ts:16 | the remainder of truncating division: `a` minus it is a multiple of `n`, it lies strictly between `-n` and `n`, and it has the sign of the dividend, which fixes its value |
| Palette.ColorByIndex | utils/helpers.ts:15-18 | a colour is returned iff the index is non-negative or a multiple of 5, and it is one of the five names |
| Palette.ColorHexByIndex | utils/helpers.ts:19-22 | a colour is returned iff the index is non-negative or a multiple of 10, and it is one of the ten hex codes |
| Palette.NaturalIndex | utils/helpers.ts:15-22 | for a natural index the lookups are `primaryColors[i % 5]` and `primaryColorsHex[i % 10]` |
| Palette.Periodic | utils/helpers.ts:15-22 | over the naturals both lookups repeat with the palette length as period |
| Palette.DirectRead | utils/helpers.ts:15-22 | below the palette length the lookup reads the entry at the index |
| Palette.NegativeIndex | utils/helpers.ts:15-22 | a negative index gives the first colour when it is a multiple of the length, and no colour otherwise |
| Palette.HexNotInjective | utils/helpers.ts:2-13 | two distinct indices, 0 and 9, give the same hex colour |
| Validators.EmailError | components/tags-input.tsx:27 | no error iff the string is a non-empty non-space run, an `@`, and another non-empty non-space run; the error is `Invalid email` |
| Validators.AcceptedEmailShape | components/tags-input.tsx:27 | an accepted address has no white space, at least three characters, and an `@` that is neither first nor last |
| Validators.CodeError | pages/verify.tsx:30 | no error iff the code has exactly 6 characters; the error is `Code must be 6 characters` |
| TagsInput.Without | components/tags-input.tsx:44 | the value is absent from the result, and every other value keeps its multiplicity |
| TagsInput.WithoutAppend | components/tags-input.tsx:44 | removal keeps order: it distributes over concatenation |
| TagsInput.WithoutAbsent | components/tags-input.tsx:44 | removing an absent value changes nothing |
| TagsInput.AddThenRemove | components/tags-input.tsx:34-44 | appending a new value, then removing it, restores the list |
| TagsInput.TagInput.constructor | components/tags-input.tsx:19-25 | no tags, empty input and form field, nothing reported |
| TagsInput.TagInput.Type | components/tags-input.tsx:92-94 | typed text becomes the form's `email`; the tags are unchanged |
| TagsInput.TagInput.HandleEnterKey | components/tags-input.tsx:31-41 | Enter with a valid address appends it (duplicates allowed), clears input and field, and reports the new list; anything else changes nothing |
| TagsInput.TagInput.HandleRemoveValue | components/tags-input.tsx:43-47 | the tags become the list without the value, and exactly that list is reported |
| Entities.Ids | components/pages/message-layout.tsx:92 | one id per user, in order |
| Entities.IdsMembership | components/pages/message-layout.tsx:92 | an id is among the projected ids iff some user carries it |
| Entities.ProfileId | components/pages/message-layout.tsx:110 | the profile id is defined iff the organisation data is |
| Entities.SelectedId | components/pages/message-layout.tsx:109 | the selection's id is defined iff something is selected |
| Common.TrimStart | components/message.tsx:70 | the result is a suffix, everything dropped is white space, and it starts with a non-space |
| Common.TrimEnd | components/message.tsx:70 | the result is a prefix, everything dropped is white space, and it ends with a non-space |
| Common.TrimEmptyIffBlank | components/message.tsx:70-72 | the trimmed text is empty iff the text is all white space |
| AppProvider.WithPresence | providers/app-provider.tsx:101-110 | same length, in order; each conversation is rewritten by `PresenceOf` |
| AppProvider.PresenceOf | providers/app-provider.tsx:103-107 | a conversation created by the id gets the new `isOnline`; any other is returned as it was; no other field changes |
| AppProvider.Replace | providers/app-provider.tsx:205-218 | same length; every entry with the id becomes the new value; every other entry is kept in place (the message list and the thread list by message id, lines 205-218; the channels by the route id, lines 275-280) |
| AppProvider.ReplaceIdempotent | providers/app-provider.tsx:205-218 | replaying an update whose value keeps its id changes nothing more |
| AppProvider.ReplaceAbsent | providers/app-provider.tsx:213-218 | an update for an absent id leaves the list as it was |
| AppProvider.PatchHasNotOpen | providers/app-provider.tsx:290-298 | same length, in order; each conversation is rewritten by `PatchOf` |
| AppProvider.PatchOf | providers/app-provider.tsx:291-296 | the conversation with the id gets the new `hasNotOpen`; any other is returned as it was; no other field changes |
| AppProvider.QueriesExclusive | providers/app-provider.tsx:112-160 | the channel and conversation queries are never both enabled, and under `/c` with a route id one of them is |
| AppProvider.UseAppContext | providers/app-provider.tsx:398-404 | the context when present, otherwise the error message the hook throws |
| AppProvider.AppState.constructor | providers/app-provider.tsx:62-87 | everything undefined, `channel` false, both fetch flags false, `channelCollaborators` is `['']` |
| AppProvider.AppState.RestoreFromStorage | providers/app-provider.tsx:197-199 | the organisation id is the stored one; `channel` holds iff the stored flag is the string `true` |
| AppProvider.AppState.OrganisationLoaded | providers/app-provider.tsx:95-97 | the data becomes the loaded data |
| AppProvider.AppState.DataEffect | providers/app-provider.tsx:242-266 | with data, channels and conversations are copied from it; the presence listeners capture it |
| AppProvider.AppState.OnPresence | providers/app-provider.tsx:247-252 | conversations become the captured data's conversations with the presence applied |
| AppProvider.AppState.ChannelLoaded | providers/app-provider.tsx:118-122 | only while `channel` holds: select the channel and raise the channel-messages flag |
| AppProvider.AppState.ChannelMessagesLoaded | providers/app-provider.tsx:139-142 | store the messages and lower the flag |
| AppProvider.AppState.ConversationLoaded | providers/app-provider.tsx:153-157 | only while `channel` is false: select the conversation and raise the flag |
| AppProvider.AppState.ConversationMessagesLoaded | providers/app-provider.tsx:174-177 | store the messages and lower the flag |
| AppProvider.AppState.ThreadMessagesLoaded | providers/app-provider.tsx:191-193 | store the thread messages |
| AppProvider.AppState.OnMessageUpdated | providers/app-provider.tsx:200-221 | the selected message is replaced iff its id matches; the thread list or the message list is rewritten, never both |
| AppProvider.AppState.RoomEffect | providers/app-provider.tsx:268-308 | with data and a route id: one `channel-open` or `convo-open`, by the flag, and the matching update listener; otherwise nothing is sent |
| AppProvider.AppState.OnChannelUpdated | providers/app-provider.tsx:274-282 | channels become the captured data's channels with the route's channel replaced |
| AppProvider.AppState.OnConvoUpdated | providers/app-provider.tsx:289-300 | conversations become the captured data's conversations with only `hasNotOpen` patched |
| AppProvider.AppState.SelectedEffect | providers/app-provider.tsx:310-314 | `channelCollaborators` is the selection's collaborator ids in order, or undefined without a selection |
| Composer.OthersThan | components/message.tsx:112-114 | every kept collaborator is one of the list and is not the user |
| Composer.OthersThanKeeps | components/message.tsx:112-114 | no collaborator other than the user is dropped |
| Composer.OthersThanAppend | components/message.tsx:112-114 | the filter keeps the original order |
| Composer.IsSelfCases | components/message.tsx:123-125 | `isSelf` holds iff there are no collaborators or the first two share an id |
| Composer.MessagePayload | components/message.tsx:109-127 | the sender and the HTML; the selection's organisation; `hasNotOpen` is the collaborators other than the sender; the channel's id and name iff a channel, the conversation's id and `isSelf` iff a conversation, the selection's collaborators iff either; all undefined without a selection |
| Composer.PayloadRecipients | components/message.tsx:112-114 | a user is in `hasNotOpen` iff it is a collaborator of the selection and not the sender |
| Composer.Outgoing | components/message.tsx:102-128 | `thread-message` with the body, the thread id and the user id iff in a thread, else `message` with exactly `MessagePayload` |
| Composer.BlankNeverSent | components/message.tsx:70-72 | text that is all white space is never accepted |
| Composer.AfterInbound | components/message.tsx:144-147 | an accepted message goes at the end, with the earlier ones unchanged; otherwise the list is unchanged |
| Composer.Notification | components/message.tsx:151-186 | nothing for another organisation; the channel notice iff the user is a collaborator and a channel name is given; otherwise the direct notice iff some conversation is covered |
| Composer.EmptyConversationCovers | components/message.tsx:158-162 | a conversation with no collaborators is covered by every event |
| Composer.Suggestions | components/message.tsx:200-253 | undefined iff the co-workers are; otherwise one username per co-worker, then `channel`, then `here` |
| Composer.Usernames | components/message.tsx:229 | one username per user, in order |
| Composer.EditorVisibleInChannel | components/message.tsx:390-391 | in a channel the editor shows iff a collaborator carries the user's id; outside a channel it always shows |
| Composer.MessageComposer.constructor | components/message.tsx:53-55 | an empty editor and nothing sent |
| Composer.MessageComposer.Edit | components/message.tsx:58-60 | the editor takes the new content |
| Composer.MessageComposer.HandleReturn | components/message.tsx:62-136 | returns true iff Enter without Shift, non-blank text and no `@<`; then exactly one event is sent and the editor is emptied; otherwise nothing changes |
| Composer.MessageComposer.OnMessage | components/message.tsx:139-149 | the shared list gains the message at the end iff the filter accepts it; an accepted message with an undefined list throws and the list stays undefined |
| MessageLayout.Invitable | components/pages/message-layout.tsx:94-98 | every kept co-worker is one of the list and is not excluded |
| MessageLayout.InvitableKeeps | components/pages/message-layout.tsx:94-98 | no co-worker who is not excluded is dropped |
| MessageLayout.InvitableAppend | components/pages/message-layout.tsx:94-98 | the filter keeps the original order |
| MessageLayout.InvitableNoExclusion | components/pages/message-layout.tsx:96 | with no collaborator list every co-worker is kept |
| MessageLayout.CollaboratorIds | components/pages/message-layout.tsx:92 | the selection's collaborator ids, defined iff there is a selection |
| MessageLayout.InviteOptions | components/pages/message-layout.tsx:92-105 | undefined iff there is no organisation; otherwise `{value: id, label: email}` per invitable co-worker in order, none of them a collaborator |
| MessageLayout.ToItems | components/pages/message-layout.tsx:100-105 | one option per user, in order |
| MessageLayout.UserIdsError | components/pages/message-layout.tsx:63-66 | an error iff the list is empty, with the rule's message |
| MessageLayout.ChannelHeader.InitialCollaborators | components/pages/message-layout.tsx:51-53 | the selection's collaborator ids at mount, or undefined |
| MessageLayout.ChannelHeader.constructor | components/pages/message-layout.tsx:50-67 | dialog closed, send button disabled, `userIds` is `['']`, nothing posted |
| MessageLayout.ChannelHeader.Open | components/pages/message-layout.tsx:267 | the dialog opens |
| MessageLayout.ChannelHeader.Close | components/pages/message-layout.tsx:138 | the dialog closes |
| MessageLayout.ChannelHeader.OnSelectChange | components/pages/message-layout.tsx:136-158 | while the dialog is open, the choice is stored and the send button is enabled; while it is closed (the select is not rendered) nothing changes |
| MessageLayout.ChannelHeader.SendInvite | components/pages/message-layout.tsx:136-191 | while the dialog is open and the button enabled, one invite with the form's ids and the channel id, unvalidated; otherwise nothing |
| MessageLayout.ChannelHeader.InviteSucceeded | components/pages/message-layout.tsx:80-89 | the dialog closes and the form resets to `['']` |
| MessageLayout.ChannelHeader.JoinClicked | components/pages/message-layout.tsx:288-306 | one join request iff the banner is shown |
| MessageLayout.ChannelHeader.JoinSucceeded | components/pages/message-layout.tsx:120-125 | the profile id is appended to a defined list and the banner goes away; with an undefined list the updater throws and the list stays undefined |
| MessageList.ItemOf | components/message-list.tsx:137-162 | a divider iff the type is `date`, labelled with the content; otherwise a row for the message |
| MessageList.Items | components/message-list.tsx:137 | undefined iff the messages are; otherwise one item per message, in order |
| MessageList.SeenAttribute | components/message-list.tsx:170 | the attribute is `"false"` iff `hasRead` is false, and absent iff `hasRead` is undefined |
| MessageList.ViewEmissions | components/message-list.tsx:112-121 | every event is a `message-view` for an entry that intersects with seen attribute `'false'` |
| MessageList.ViewEmissionsAppend | components/message-list.tsx:113-120 | entries are handled one by one, in order |
| MessageList.ViewEmissionsSingle | components/message-list.tsx:114-118 | one entry sends its id iff it reports |
| MessageList.RowReportsIffUnread | components/message-list.tsx:114-118 | a row reports itself iff it is visible and its message is known to be unread |
| MessageList.ReactedBy | components/message-list.tsx:285-287 | true iff some reactor's id is the user's |
| MessageList.ChipFor | components/message-list.tsx:263-297 | the emoji; the count equal to the number of reactors; highlighted iff the user reacted; the tooltip is the usernames joined by `, ` |
| MessageList.Names | components/message-list.tsx:264-266 | one username per reactor, undefined printed as empty |
| MessageList.JoinSnoc | components/message-list.tsx:270 | joining one more part adds the separator and the part |
| MessageList.JoinLength | components/message-list.tsx:270 | the joined text's length is the parts' lengths plus one separator per neighbouring pair |
| MessageList.ThreadSummary | components/message-list.tsx:301-334 | present iff a last-reply date is set; a count iff the message has one; `reply` iff the count is 1, else `replies` |
| MessageList.RowActions | components/message-list.tsx:176-223 | the three quick reactions, then reply-in-thread iff not in a thread |
| MessageList.ListView.constructor | components/message-list.tsx:103 | no refs and nothing sent |
| MessageList.ListView.RefCallback | components/message-list.tsx:171-173 | the ref list only grows, by the pushed element |
| MessageList.ListView.HandleReaction | components/message-list.tsx:107-109 | exactly one `reaction` with the emoji, id, user and thread flag |
| MessageList.ListView.OnIntersect | components/message-list.tsx:111-122 | the events sent are exactly the batch's view emissions |
| MessageList.ViewEmissionsStep | components/message-list.tsx:113-120 | one more entry adds a `message-view` for it exactly when it reports |
| HuddleModel.Initial | components/huddle.tsx:104-117 | off, with an empty registry and an empty log, and valid |
| HuddleModel.SetupLog | components/huddle.tsx:154-203 | the media request comes first, no signal is sent, and a connection is created iff media arrives while the huddle is on |
| HuddleModel.SetupPeer | components/huddle.tsx:154-204 | stores a new connection under `user` exactly when every step succeeds; appends the setup calls; emits nothing |
| HuddleModel.MediaRequested | components/huddle.tsx:156-165 | the screen or camera request, keeping the stream it yields |
| HuddleModel.ConnectionCreated | components/huddle.tsx:166-202 | with a stream and a preview: a new connection and its tracks; the registry entry only when the tracks were added |
| HuddleModel.SetupStoresOnlyOnSuccess | components/huddle.tsx:154-204 | the registry changes only after media, preview and tracks succeed; a stored connection is new and was created for `user` |
| HuddleModel.SetupPeerValid | components/huddle.tsx:154-204 | setup keeps the session invariant |
| HuddleModel.SetupWebRTC | components/huddle.tsx:206-210 | one more signal, `join-room` with the room and the user's own id, after every setup call; the connection is stored under the user's own id |
| HuddleModel.SetupWebRTCJoinsOnce | components/huddle.tsx:206-210 | the log is the setup calls followed by `join-room`, and the setup sends nothing |
| HuddleModel.CallEffects | components/huddle.tsx:322-333 | at most one signal, an offer to `user`; with a connection it is sent iff createOffer and setLocalDescription succeed, and video is requested iff not sharing; a rejected createOffer ends the log there and a rejected setLocalDescription ends it after that call; without a connection the log is exactly the offer with an undefined description |
| HuddleModel.OfferEffects | components/huddle.tsx:336-352 | setRemote, then createAnswer, then setLocal, then the answer; a missing connection logs nothing; a rejected setRemoteDescription, createAnswer or setLocalDescription ends the log right after that call, so nothing is sent |
| HuddleModel.AnswerEffects | components/huddle.tsx:354-364 | one setRemote on the sender's connection, or nothing when the sender has none |
| HuddleModel.IceEffects | components/huddle.tsx:367-376 | one addIceCandidate iff the candidate builds and the key has a connection; never a signal |
| HuddleModel.IceMismatch | components/huddle.tsx:228-230 | with the single object the peer sends, no candidate is added unless a connection is stored under `"undefined"` |
| HuddleModel.LocalCandidate | components/huddle.tsx:169-177 | a candidate is emitted with the room and the connection's key; end-of-candidates sends nothing |
| HuddleModel.LocalCandidateSender | components/huddle.tsx:169-177 | for a stored connection the sender is the key it is stored under |
| HuddleModel.RemoveVideo | components/huddle.tsx:274-290 | with a container of at least two videos exactly the one at index 1 is removed; otherwise nothing |
| HuddleModel.OnTrack | components/huddle.tsx:183-196 | in a valid session with the huddle on, the container ends as the preview plus the new remote video |
| HuddleModel.OnRoomLeave | components/huddle.tsx:233-235 | the registry and the log are unchanged; only the remote video goes |
| HuddleModel.Connect | components/huddle.tsx:264-267 | the log only grows, no registry key is lost, and only the connection fields change |
| HuddleModel.ConnectLog | components/huddle.tsx:264-267 | one round appends the setup calls for the user, then the call to that user made with the registry the setup left |
| HuddleModel.ConnectUsers | components/huddle.tsx:262-272 | the loop only appends to the log, keeps every key, and touches neither the switch nor the container |
| HuddleModel.ConnectUsersSnoc | components/huddle.tsx:262-272 | one more user appends that user's setup calls, then that user's call, after everything the earlier users produced |
| HuddleModel.ConnectUsersOffers | components/huddle.tsx:262-272 | the loop sends only offers, each to one of the users, at most one per user |
| HuddleModel.OnJoinRoom | components/huddle.tsx:212-215 | the connected users become the joining user alone; no key is lost |
| HuddleModel.OnJoinRoomOffersOnce | components/huddle.tsx:212-215 | after a `join-room` at most one signal is sent, an offer to the joining user |
| HuddleModel.CloseEffects | components/huddle.tsx:244-250 | every close is of a listed key's connection |
| HuddleModel.CloseEffectsCover | components/huddle.tsx:246-250 | every listed key with a connection is closed |
| HuddleModel.CloseEffectsSilent | components/huddle.tsx:246-250 | the cleanup sends no signal |
| HuddleModel.CloseAllClosesEveryEntry | components/huddle.tsx:244-250 | the cleanup closes exactly the registry's connections |
| HuddleModel.Cleanup | components/huddle.tsx:244-250 | with the previous run on, every stored connection is closed in key order; otherwise nothing; only the log changes |
| HuddleModel.MediaEffect | components/huddle.tsx:241-260 | the previous cleanup runs, then setup when on; a connection under the user's id is stored only on success |
| HuddleModel.MediaEffectLog | components/huddle.tsx:241-260 | the log gains the previous run's closes, then, when on, the setup calls and `join-room` |
| HuddleModel.SwitchOn | components/huddle.tsx:486-488 | the huddle turns on with a container holding only the preview |
| HuddleModel.StopLog | components/huddle.tsx:298-305 | silent; nothing without a preview stream; otherwise stop the tracks and close at most the user's own connection |
| HuddleModel.SwitchOff | components/huddle.tsx:292-307 | exactly one signal, `room-leave`; the pop-up closes; the registry is unchanged |
| HuddleModel.SwitchOffClosesOnlyOwn | components/huddle.tsx:303-305 | switching off closes no connection but the user's own, and only with a preview stream |
| HuddleModel.ToggleVideo | components/huddle.tsx:136-142 | with a video track, flip its `enabled` and the flag; otherwise nothing changes |
| HuddleModel.ConnectUsersValid | components/huddle.tsx:262-272 | the connected-users loop keeps the invariant |
| HuddleModel.MediaEffectValid | components/huddle.tsx:241-260 | the media effect keeps the invariant |
| HuddleModel.SwitchValid | components/huddle.tsx:292-307 | the switch and the effect it triggers keep the invariant |
| HuddleModel.TrackValid | components/huddle.tsx:183-196 | a track event keeps the invariant: at most one remote video |
| HuddleModel.RoomLeaveValid | components/huddle.tsx:233-235 | a `room-leave` keeps the invariant |
| HuddleModel.ApplyValid | components/huddle.tsx:119-376 | every handler keeps the invariant |
| HuddleModel.ControlValid | components/huddle.tsx:119-151 | the huddle's buttons keep the invariant |
| HuddleModel.MediaControlValid | components/huddle.tsx:241-260 | the switch, share and microphone buttons, with the effect they trigger, keep the invariant |
| HuddleModel.SignalValid | components/huddle.tsx:212-235 | the socket listeners and the connection callbacks keep the invariant |
| HuddleModel.PeerSignalValid | components/huddle.tsx:183-235 | `join-room`, `room-leave` and a remote track keep the invariant |
| HuddleModel.LogSignalValid | components/huddle.tsx:169-376 | offers, answers, remote and local candidates keep the invariant: they only append to the log |
| HuddleModel.ApplyKeepsKeys | components/huddle.tsx:202 | no handler removes a registry key |
| HuddleModel.ControlKeepsKeys | components/huddle.tsx:292-307 | the buttons remove no registry key |
| HuddleModel.SignalKeepsKeys | components/huddle.tsx:212-235 | the listeners remove no registry key |
| HuddleModel.MediaEffectKeepsKeys | components/huddle.tsx:241-260 | the media effect removes no registry key |
| HuddleModel.MediaEffectExtendsLog | components/huddle.tsx:241-260 | the media effect only appends to the log |
| HuddleModel.ApplyExtendsLog | components/huddle.tsx:119-376 | every handler only appends to the log |
| HuddleModel.ControlExtendsLog | components/huddle.tsx:119-151 | the buttons only append to the log |
| HuddleModel.MediaControlExtendsLog | components/huddle.tsx:241-260 | the switch, share and microphone buttons, with the effect they trigger, only append to the log |
| HuddleModel.SignalExtendsLog | components/huddle.tsx:212-235 | the listeners only append to the log |
| HuddleModel.RunInvariants | components/huddle.tsx:100-503 | over any run of events the session stays valid, keeps every key, and only appends to the log |
| HuddleModel.SwitchOnStep | components/huddle.tsx:241-260 | switching on from a fresh session runs setupWebRTC and arms the cleanup |
| HuddleModel.SwitchOnScenario | components/huddle.tsx:206-210 | switching on with working media stores connection 0 under the user's id and sends only `join-room` |
| HuddleSession.Huddle.constructor | components/huddle.tsx:104-117 | the fields start as the initial session |
| HuddleSession.Huddle.SetupPeerConnection | components/huddle.tsx:154-204 | the fields move as `SetupPeer` says |
| HuddleSession.Huddle.RequestMedia | components/huddle.tsx:156-165 | the fields move as `MediaRequested` says |
| HuddleSession.Huddle.CreateConnection | components/huddle.tsx:166-202 | the fields move as `ConnectionCreated` says |
| HuddleSession.Huddle.SetupWebRTC | components/huddle.tsx:206-210 | the fields move as `HuddleModel.SetupWebRTC` says |
| HuddleSession.Huddle.InitiateCall | components/huddle.tsx:322-333 | the log grows by `CallEffects` |
| HuddleSession.Huddle.HandleOffer | components/huddle.tsx:336-352 | the log grows by `OfferEffects` |
| HuddleSession.Huddle.HandleAnswer | components/huddle.tsx:354-364 | the log grows by `AnswerEffects` |
| HuddleSession.Huddle.HandleIceCandidate | components/huddle.tsx:367-376 | the log grows by `IceEffects` |
| HuddleSession.Huddle.OnLocalCandidate | components/huddle.tsx:169-177 | the fields move as `LocalCandidate` says |
| HuddleSession.Huddle.RemoveVideo | components/huddle.tsx:274-290 | the container becomes `HuddleModel.RemoveVideo` of the old one |
| HuddleSession.Huddle.OnTrack | components/huddle.tsx:183-196 | the fields move as `HuddleModel.OnTrack` says |
| HuddleSession.Huddle.OnRoomLeave | components/huddle.tsx:233-235 | the fields move as `HuddleModel.OnRoomLeave` says |
| HuddleSession.Huddle.OnJoinRoom | components/huddle.tsx:212-215 | the fields move as `HuddleModel.OnJoinRoom` says |
| HuddleSession.Huddle.ConnectUser | components/huddle.tsx:264-267 | the fields move as `Connect` says |
| HuddleSession.Huddle.SetupPeerConnections | components/huddle.tsx:262-272 | the loop moves the fields as `ConnectUsers` over the connected users in order |
| HuddleSession.Huddle.CloseAll | components/huddle.tsx:244-250 | the loop appends exactly `CloseEffects` over the registry's keys in order |
| HuddleSession.Huddle.Cleanup | components/huddle.tsx:244-250 | the fields move as `HuddleModel.Cleanup` says |
| HuddleSession.Huddle.MediaEffect | components/huddle.tsx:241-260 | the fields move as `HuddleModel.MediaEffect` says |
| HuddleSession.Huddle.SwitchOn | components/huddle.tsx:486-488 | the fields move as `HuddleModel.SwitchOn` says |
| HuddleSession.Huddle.HandleHuddleRequest | components/huddle.tsx:292-307 | the fields move as `SwitchOff` says |
| HuddleSession.Huddle.ToggleVideo | components/huddle.tsx:136-142 | the fields move as `HuddleModel.ToggleVideo` says |
| HuddleSession.Huddle.ToggleAudio | components/huddle.tsx:145-151 | the audio flag flips |
| HuddleSession.Huddle.SetScreenSharing | components/huddle.tsx:119-133 | the sharing flag takes the new value |
| HuddleSession.Huddle.TogglePopup | components/huddle.tsx:393 | the pop-up flag flips |
| HuddleSession.Huddle.SwitchClicked | components/huddle.tsx:461-488 | switch off or on, then the media effect |
| HuddleSession.Huddle.ShareClicked | components/huddle.tsx:449 | flip sharing, then the media effect |
| HuddleSession.Huddle.MicClicked | components/huddle.tsx:421 | flip the microphone, then the media effect |
| HuddleSession.Huddle.Handle | components/huddle.tsx:119-376 | every event moves the fields as `Apply` says, so `RunInvariants` holds of the component |
| HuddleSession.Huddle.HandleControl | components/huddle.tsx:119-151 | a button event moves the fields as `Apply` says |
| HuddleSession.Huddle.HandleSignal | components/huddle.tsx:212-235 | a listener or callback event moves the fields as `Apply` says |

## Left out

- Composer.MessageComposer.OnMessage: reports the throw of its state updater on an undefined list, but not what React then does with an error raised during a state update (the nearest error boundary, or unmounting the tree).
- MessageLayout.ChannelHeader.JoinSucceeded: reports the throw of its state updater on an undefined list (reachable when nothing was selected at mount), but not what React then does with that error.
- Room changes: a huddle session keeps the room it was created with (`roomId`). In the component, each connection's `onicecandidate` closure keeps the `selected` of the render that created the connection, `join-room` uses the `selected` of the render whose media effect ran, and `room-leave` uses the `selected` of the render whose switch handler ran. A selection change while the huddle is on therefore makes later `join-room` and `room-leave` signals, and candidates of connections created afterwards, name the new room, while existing connections keep naming the old one. The model has no selection-change event and does not capture this.
- Socket transport: connect, disconnect, and the `on`/`off` bookkeeping are not modelled. Emits are appended to a log and listeners are handler methods. Listeners that were removed and registered again are modelled only where what they captured matters.
- Presence emits: the window focus and blur handlers that emit `user-join` and `user-leave` (providers/app-provider.tsx:228-240) are not modelled. They are browser window events with no state change.
- WebRTC and media internals: SDP and ICE semantics, connection-state logging, and the track objects. A connection is an opaque handle, and each browser step only succeeds or fails.
- HuddleModel.SetupPeer: a failure partway through `addTrack` (some tracks added, then a throw) is modelled as no tracks added; it is one outcome flag.
- HuddleModel.MediaEffect: effects re-run in sequence with awaited chains completing in turn. The interleaving of asynchronous handlers is not modelled. When a switch-off and an effect cleanup both close the user's own connection, their relative order is fixed to the handler first.
- Rendering: styling, layout, scrolling, avatars, and the `formatDate` and `truncateDraftToHtml` helpers are left out. The two helpers are not part of this model. Notification titles and colours are left out too; a notice records only its kind, the sender and the channel name.
- Rich-text editor: draft-js, `convertToHTML` and DOMPurify are treated as opaque. The editor is its plain text plus the HTML produced from it.
- String lengths: they are counted in Unicode scalar values, not UTF-16 code units. This matters only for the six-character code rule, on astral characters.
- Key order: JavaScript orders integer-like keys numerically in `for ... in`. The registry's key order is modelled as insertion order.
- Keyboard handling: `preventDefault` and the editor's focus move are not modelled.
- Navigation: the router push for reply-in-thread and for the thread summary is not modelled.
- Mutation state: `refreshApp`, mutation loading states, and the error and success toasts are not modelled.
- TagsInput.TagInput.HandleEnterKey: the form's error display for an invalid address is not modelled.
- Avatar colour: the invite select's avatar colour (components/pages/message-layout.tsx:166) passes a label, not a number, to the palette helper. It is not modelled, since the helper is modelled over integers only.
- Composer.Notification: the event's collaborators are assumed to be present; an event without them throws inside `every`.
- MessageList.ListView.OnIntersect: the IntersectionObserver wiring (which rows are observed) is not modelled. The callback is given the batch of entries.

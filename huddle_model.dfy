/** components/huddle.tsx as a state machine: the huddle's session state, one transition
    per handler, and the properties the handlers keep. Each browser call (getUserMedia,
    createOffer, setRemoteDescription, ...) appears as an effect in the session's log, and
    whether it succeeds is a parameter of the transition. Socket emits appear in the same
    log, so the order of browser calls and emits is visible. */
module HuddleModel {
  import opened Common

  /** A peer connection: the index of its `new RTCPeerConnection` among all created. */
  type Handle = nat

  /** Session descriptions, ICE candidates and media streams are opaque values. */
  datatype Sdp = Sdp(text: string)
  datatype Candidate = Candidate(text: string)
  datatype Stream = Stream(serial: nat, hasVideo: bool)

  /** A `<video>` in the container: the local preview React renders, or a remote stream
      appended by a track event. */
  datatype Video = LocalPreview | RemoteVideo(stream: Stream)

  /** The socket events the huddle emits. */
  datatype Signal =
    | JoinRoom(roomId: Option<string>, userId: string)
    | Offer(offer: Option<Sdp>, targetUserId: string)
    | Answer(answer: Sdp, senderUserId: string)
    | IceCandidate(roomId: Option<string>, candidate: Candidate, senderUserId: string)
    | RoomLeave(roomId: Option<string>, userId: string)

  /** Browser calls and emits, in the order the handlers make them. */
  datatype Effect =
    | RequestDisplay                                     // getDisplayMedia({ video: true })
    | RequestCamera(audio: bool)                         // getUserMedia({ audio, video: true })
    | CreatePeer(handle: Handle)                         // new RTCPeerConnection(config)
    | AddTracks(handle: Handle, stream: Stream)          // addTrack for every track of the stream
    | CreateOffer(handle: Handle, receiveVideo: bool)
    | CreateAnswer(handle: Handle)
    | SetLocal(handle: Handle, sdp: Sdp)
    | SetRemote(handle: Handle, sdp: Sdp)
    | AddCandidate(handle: Handle, candidate: Candidate)
    | ClosePeer(handle: Handle)
    | StopTracks(stream: Stream)
    | EnableVideoTrack(stream: Stream, enabled: bool)
    | Emit(signal: Signal)

  /** How the calls of setupPeerConnection turn out: the stream the media request yields
      (`None` when it is rejected) and whether every `addTrack` succeeds. */
  datatype SetupOutcome = SetupOutcome(media: Option<Stream>, tracksAdded: bool)

  /** How initiateCall's calls turn out: the offer createOffer yields (`None` when it is
      rejected) and whether setLocalDescription succeeds. */
  datatype OfferOutcome = OfferOutcome(offer: Option<Sdp>, localSet: bool)

  /** How handleOffer's calls turn out: setRemoteDescription, the answer createAnswer
      yields, setLocalDescription. */
  datatype AnswerOutcome = AnswerOutcome(remoteSet: bool, answer: Option<Sdp>, localSet: bool)

  /** The huddle's state. `connectedUsers` holds the keys of the connected-users object and
      `pcOrder` the keys of the registry, both in insertion order (the order `for ... in`
      visits them); `peers[h]` is the user the connection `h` was created for. `preview`
      is the local `<video>`'s `srcObject`, `videos` the container's videos (none while the
      huddle is off, since the container is not rendered). `closeOnCleanup` says whether the
      media effect's last run left the close-every-connection cleanup behind. */
  datatype Session = Session(
    userId: string,
    roomId: Option<string>,
    checked: bool,
    popupWindow: bool,
    videoEnabled: bool,
    audioEnabled: bool,
    screenSharing: bool,
    connectedUsers: seq<string>,
    pcRefs: map<string, Handle>,
    pcOrder: seq<string>,
    peers: seq<string>,
    localStream: Option<Stream>,
    preview: Option<Stream>,
    videos: seq<Video>,
    closeOnCleanup: bool,
    log: seq<Effect>)

  /** The state when the component mounts. */
  function Initial(userId: string, roomId: Option<string>, popupWindow: bool): (s: Session)
    ensures Valid(s) && !s.checked && s.pcRefs == map[] && s.log == []
  {
    Session(userId, roomId, false, popupWindow, true, false, false, [], map[], [], [], None, None, [], false, [])
  }

  predicate Distinct(q: seq<string>) {
    forall i, j :: 0 <= i < j < |q| ==> q[i] != q[j]
  }

  /** What every reachable session satisfies: each registry entry is a connection created
      for its key; `pcOrder` lists the registry's keys once each; while the huddle is on, the
      container holds the local preview and at most one remote video; while it is off there
      is no container and no preview element. */
  ghost predicate Valid(s: Session) {
    && (forall u :: u in s.pcRefs ==> s.pcRefs[u] < |s.peers| && s.peers[s.pcRefs[u]] == u)
    && Distinct(s.pcOrder)
    && (forall u :: u in s.pcOrder <==> u in s.pcRefs)
    && (s.checked ==>
          1 <= |s.videos| <= 2 && s.videos[0] == LocalPreview
          && (|s.videos| == 2 ==> s.videos[1].RemoteVideo?))
    && (!s.checked ==> s.videos == [] && s.preview.None?)
  }

  /** The signals among a list of effects, in order. */
  function Emits(effects: seq<Effect>): (r: seq<Signal>)
    ensures |r| <= |effects|
  {
    if effects == [] then []
    else (if effects[0].Emit? then [effects[0].signal] else []) + Emits(effects[1..])
  }

  /** A list of effects with no emit in it. */
  predicate Silent(effects: seq<Effect>) {
    forall i :: 0 <= i < |effects| ==> !effects[i].Emit?
  }

  lemma {:induction false} SilentEmits(effects: seq<Effect>)
    requires Silent(effects)
    ensures Emits(effects) == []
  {
    if effects != [] {
      assert forall i :: 0 <= i < |effects[1..]| ==> effects[1..][i] == effects[i + 1];
      SilentEmits(effects[1..]);
    }
  }

  lemma {:induction false} EmitsAppend(a: seq<Effect>, b: seq<Effect>)
    ensures Emits(a + b) == Emits(a) + Emits(b)
  {
    if a == [] {
      assert a + b == b;
    } else {
      assert (a + b)[0] == a[0] && (a + b)[1..] == a[1..] + b;
      EmitsAppend(a[1..], b);
    }
  }

  /** A silent stretch between two lists of effects contributes no signal. */
  lemma EmitsAroundSilent(a: seq<Effect>, quiet: seq<Effect>, b: seq<Effect>)
    requires Silent(quiet)
    ensures Emits(a + quiet + b) == Emits(a) + Emits(b)
  {
    EmitsAppend(a + quiet, b);
    EmitsAppend(a, quiet);
    SilentEmits(quiet);
  }

  lemma EmitsOne(e: Effect)
    ensures Emits([e]) == if e.Emit? then [e.signal] else []
  {
    assert [e][1..] == [];
  }

  // ---------------------------------------------------------------------------------------
  // setupPeerConnection and setupWebRTC

  /** The media request setupPeerConnection makes: the screen while sharing, else the
      camera with the microphone as the audio flag says. */
  function MediaRequest(s: Session): Effect {
    if s.screenSharing then RequestDisplay else RequestCamera(s.audioEnabled)
  }

  /** setupPeerConnection stores a connection when the media request succeeds, the preview
      element exists (the huddle is on), and the tracks are added. */
  predicate SetupStores(s: Session, o: SetupOutcome) {
    o.media.Some? && s.checked && o.tracksAdded
  }

  /** The browser calls setupPeerConnection(user) makes: the media request; then, when it
      yields a stream and the preview element exists, a new connection and the addition of
      the stream's tracks to it. */
  function SetupLog(s: Session, o: SetupOutcome): (r: seq<Effect>)
    ensures |r| >= 1 && r[0] == MediaRequest(s)
    ensures Silent(r)
    ensures |r| > 1 <==> o.media.Some? && s.checked
  {
    [MediaRequest(s)] + ConnectionLog(s, o)
  }

  function ConnectionLog(s: Session, o: SetupOutcome): seq<Effect> {
    if o.media.None? || !s.checked then []
    else [CreatePeer(|s.peers|), AddTracks(|s.peers|, o.media.value)]
  }

  /** setupPeerConnection(user): request media and keep the stream; show it in the preview
      (assigning to a missing element throws, which ends the attempt); create a connection
      and add the stream's tracks; only then store the connection under `user`, replacing
      any earlier one without closing it. Every failure is swallowed. */
  function SetupPeer(s: Session, user: string, o: SetupOutcome): (t: Session)
    ensures t.pcRefs == if SetupStores(s, o) then s.pcRefs[user := |s.peers|] else s.pcRefs
    ensures t.log == s.log + SetupLog(s, o) && Emits(t.log) == Emits(s.log)
    ensures s.peers <= t.peers
    ensures t == s.(log := t.log, pcRefs := t.pcRefs, pcOrder := t.pcOrder, peers := t.peers,
                    localStream := t.localStream, preview := t.preview)
  {
    var r := MediaRequested(s, o);
    assert s.log + SetupLog(s, o) == r.log + ConnectionLog(r, o);
    EmitsAppend(s.log, SetupLog(s, o));
    SilentEmits(SetupLog(s, o));
    ConnectionCreated(r, user, o)
  }

  /** The first step: the media request, and the stream kept when it yields one. */
  function MediaRequested(s: Session, o: SetupOutcome): (t: Session)
    ensures t.log == s.log + [MediaRequest(s)]
    ensures t == s.(log := t.log, localStream := t.localStream)
  {
    s.(log := s.log + [MediaRequest(s)],
       localStream := if o.media.Some? then o.media else s.localStream)
  }

  /** The second step, with the stream in hand and the preview element present: a new
      connection numbered after the existing ones, its tracks, and, when they were added,
      the registry entry for `user`. */
  function ConnectionCreated(s: Session, user: string, o: SetupOutcome): (t: Session)
    ensures t.log == s.log + ConnectionLog(s, o)
    ensures t.pcRefs == if SetupStores(s, o) then s.pcRefs[user := |s.peers|] else s.pcRefs
    ensures s.peers <= t.peers
    ensures t == s.(log := t.log, pcRefs := t.pcRefs, pcOrder := t.pcOrder, peers := t.peers,
                    preview := t.preview)
  {
    if o.media.None? || !s.checked then s
    else
      var h := |s.peers|;
      var created := s.(log := s.log + [CreatePeer(h), AddTracks(h, o.media.value)],
                        preview := o.media, peers := s.peers + [user]);
      if !o.tracksAdded then created
      else created.(pcRefs := s.pcRefs[user := h],
                    pcOrder := if user in s.pcRefs then s.pcOrder else s.pcOrder + [user])
  }

  /** A connection is stored only after every step succeeded; otherwise the registry is
      unchanged. A stored connection is a new one, created for `user`. */
  lemma SetupStoresOnlyOnSuccess(s: Session, user: string, o: SetupOutcome)
    requires Valid(s)
    ensures var t := SetupPeer(s, user, o);
      (t.pcRefs != s.pcRefs ==> o.media.Some? && o.tracksAdded && s.checked) &&
      (SetupStores(s, o) ==> user in t.pcRefs && t.peers[t.pcRefs[user]] == user
                             && (user in s.pcRefs ==> t.pcRefs[user] != s.pcRefs[user]))
  {
    var t := SetupPeer(s, user, o);
    if SetupStores(s, o) && user in s.pcRefs {
      assert s.pcRefs[user] < |s.peers| == t.pcRefs[user];
    }
  }

  lemma SetupPeerValid(s: Session, user: string, o: SetupOutcome)
    requires Valid(s)
    ensures Valid(SetupPeer(s, user, o))
  {
    var t := SetupPeer(s, user, o);
    if SetupStores(s, o) {
      assert t.peers == s.peers + [user];
      forall u | u in t.pcRefs ensures t.pcRefs[u] < |t.peers| && t.peers[t.pcRefs[u]] == u {
        if u != user {
          assert t.peers[t.pcRefs[u]] == s.peers[s.pcRefs[u]];
        }
      }
      if user !in s.pcRefs {
        assert t.pcOrder == s.pcOrder + [user];
        assert user !in s.pcOrder;
      }
    }
  }

  /** setupWebRTC: set up the connection under the user's own id, then emit `join-room`. */
  function SetupWebRTC(s: Session, o: SetupOutcome): (t: Session)
    ensures Emits(t.log) == Emits(s.log) + [JoinRoom(s.roomId, s.userId)]
    ensures t.log[|t.log| - 1] == Emit(JoinRoom(s.roomId, s.userId))
    ensures t.pcRefs == if SetupStores(s, o) then s.pcRefs[s.userId := |s.peers|] else s.pcRefs
  {
    var prepared := SetupPeer(s, s.userId, o);
    EmitsAppend(prepared.log, [Emit(JoinRoom(s.roomId, s.userId))]);
    EmitsOne(Emit(JoinRoom(s.roomId, s.userId)));
    prepared.(log := prepared.log + [Emit(JoinRoom(s.roomId, s.userId))])
  }

  /** Enabling emits exactly one signal, `join-room` with the room and the user's own id,
      and it comes after every browser call of the setup. */
  lemma SetupWebRTCJoinsOnce(s: Session, o: SetupOutcome)
    ensures var t := SetupWebRTC(s, o);
      t.log == s.log + SetupLog(s, o) + [Emit(JoinRoom(s.roomId, s.userId))] &&
      Silent(SetupLog(s, o))
  {
  }

  // ---------------------------------------------------------------------------------------
  // initiateCall, handleOffer, handleAnswer, handleIceCandidate

  /** initiateCall(user). With no connection under `user`, every optional call is skipped
      and the offer is emitted with an undefined description. Otherwise: createOffer
      (requesting video unless sharing the screen), setLocalDescription, then emit the
      offer to `user`; a rejection ends the chain. */
  function CallEffects(pcRefs: map<string, Handle>, screenSharing: bool, user: string, o: OfferOutcome): (r: seq<Effect>)
    ensures |Emits(r)| <= 1
    ensures forall sig :: sig in Emits(r) ==> sig.Offer? && sig.targetUserId == user
    ensures user !in pcRefs ==> r == [Emit(Offer(None, user))]
    ensures user in pcRefs && o.offer.None? ==> r == [CreateOffer(pcRefs[user], !screenSharing)]
    ensures user in pcRefs && o.offer.Some? && !o.localSet ==>
      r == [CreateOffer(pcRefs[user], !screenSharing), SetLocal(pcRefs[user], o.offer.value)]
    ensures user in pcRefs ==>
      |r| >= 1 && r[0] == CreateOffer(pcRefs[user], !screenSharing) &&
      (Emits(r) != [] <==> o.offer.Some? && o.localSet) &&
      (Emits(r) != [] ==> r == [CreateOffer(pcRefs[user], !screenSharing), SetLocal(pcRefs[user], o.offer.value), Emit(Offer(o.offer, user))])
  {
    if user !in pcRefs then
      EmitsOne(Emit(Offer(None, user)));
      [Emit(Offer(None, user))]
    else
      var h := pcRefs[user];
      var r := [CreateOffer(h, !screenSharing)] +
        if o.offer.None? then []
        else [SetLocal(h, o.offer.value)] + if !o.localSet then [] else [Emit(Offer(o.offer, user))];
      assert Emits(r) == if o.offer.Some? && o.localSet then [Offer(o.offer, user)] else [] by {
        EmitsOne(CreateOffer(h, !screenSharing));
        if o.offer.Some? {
          var tail := [SetLocal(h, o.offer.value)] + if !o.localSet then [] else [Emit(Offer(o.offer, user))];
          EmitsAppend([CreateOffer(h, !screenSharing)], tail);
          EmitsOne(SetLocal(h, o.offer.value));
          EmitsAppend([SetLocal(h, o.offer.value)], if !o.localSet then [] else [Emit(Offer(o.offer, user))]);
          EmitsOne(Emit(Offer(o.offer, user)));
        } else {
          assert r == [CreateOffer(h, !screenSharing)];
        }
      }
      r
  }

  function Initiate(s: Session, user: string, o: OfferOutcome): Session {
    s.(log := s.log + CallEffects(s.pcRefs, s.screenSharing, user, o))
  }

  /** handleOffer(offer, sender): with no connection under the sender, the first call
      throws and nothing happens. Otherwise setRemoteDescription, createAnswer,
      setLocalDescription, emit the answer back to the sender; a rejection ends the chain. */
  function OfferEffects(pcRefs: map<string, Handle>, offer: Sdp, sender: string, o: AnswerOutcome): (r: seq<Effect>)
    ensures sender !in pcRefs ==> r == []
    ensures Emits(r) == if sender in pcRefs && o.remoteSet && o.answer.Some? && o.localSet
                        then [Answer(o.answer.value, sender)] else []
    ensures sender in pcRefs ==> |r| >= 1 && r[0] == SetRemote(pcRefs[sender], offer)
    ensures sender in pcRefs && !o.remoteSet ==> r == [SetRemote(pcRefs[sender], offer)]
    ensures sender in pcRefs && o.remoteSet && o.answer.None? ==>
      r == [SetRemote(pcRefs[sender], offer), CreateAnswer(pcRefs[sender])]
    ensures sender in pcRefs && o.remoteSet && o.answer.Some? && !o.localSet ==>
      r == [SetRemote(pcRefs[sender], offer), CreateAnswer(pcRefs[sender]), SetLocal(pcRefs[sender], o.answer.value)]
    ensures Emits(r) != [] ==>
      r == [SetRemote(pcRefs[sender], offer), CreateAnswer(pcRefs[sender]),
            SetLocal(pcRefs[sender], o.answer.value), Emit(Answer(o.answer.value, sender))]
  {
    if sender !in pcRefs then []
    else
      var h := pcRefs[sender];
      var afterLocal := if !o.localSet || o.answer.None? then [] else [Emit(Answer(o.answer.value, sender))];
      var afterAnswer := if o.answer.None? then [] else [SetLocal(h, o.answer.value)] + afterLocal;
      var afterRemote := if !o.remoteSet then [] else [CreateAnswer(h)] + afterAnswer;
      assert Emits([SetRemote(h, offer)] + afterRemote) ==
             if o.remoteSet && o.answer.Some? && o.localSet then [Answer(o.answer.value, sender)] else [] by {
        EmitsOne(SetRemote(h, offer));
        EmitsAppend([SetRemote(h, offer)], afterRemote);
        if o.remoteSet {
          EmitsOne(CreateAnswer(h));
          EmitsAppend([CreateAnswer(h)], afterAnswer);
          if o.answer.Some? {
            EmitsOne(SetLocal(h, o.answer.value));
            EmitsAppend([SetLocal(h, o.answer.value)], afterLocal);
            if o.localSet {
              EmitsOne(Emit(Answer(o.answer.value, sender)));
            }
          }
        }
      }
      [SetRemote(h, offer)] + afterRemote
  }

  /** handleAnswer(answer, sender): setRemoteDescription on the sender's connection; with
      no connection the call throws and nothing happens. Nothing is emitted. */
  function AnswerEffects(pcRefs: map<string, Handle>, answer: Sdp, sender: string): (r: seq<Effect>)
    ensures sender in pcRefs ==> r == [SetRemote(pcRefs[sender], answer)]
    ensures sender !in pcRefs ==> r == []
  {
    if sender in pcRefs then [SetRemote(pcRefs[sender], answer)] else []
  }

  /** The key the `ice-candidate` listener looks up. The listener takes two positional
      arguments while a single object is sent, so the key is the second argument when one
      is delivered and the property name `"undefined"` otherwise. */
  function IceKey(secondArg: Option<string>): string {
    secondArg.GetOr("undefined")
  }

  /** handleIceCandidate: build the candidate (a constructor that throws ends the handler),
      then add it to the connection under the key if there is one. An add that fails is
      only logged. */
  function IceEffects(pcRefs: map<string, Handle>, built: Option<Candidate>, secondArg: Option<string>): (r: seq<Effect>)
    ensures Emits(r) == []
    ensures IceKey(secondArg) !in pcRefs ==> r == []
    ensures r != [] <==> built.Some? && IceKey(secondArg) in pcRefs
    ensures r != [] ==> r == [AddCandidate(pcRefs[IceKey(secondArg)], built.value)]
  {
    var key := IceKey(secondArg);
    if built.None? || key !in pcRefs then []
    else
      EmitsOne(AddCandidate(pcRefs[key], built.value));
      [AddCandidate(pcRefs[key], built.value)]
  }

  /** With the single object the peer sends and no second argument, a candidate reaches a
      connection only if one is stored under the key `"undefined"`. */
  lemma IceMismatch(pcRefs: map<string, Handle>, built: Option<Candidate>)
    requires "undefined" !in pcRefs
    ensures IceEffects(pcRefs, built, None) == []
  {
  }

  /** The connection `h`'s onicecandidate: emit the candidate with the room and, as the
      sender, the key the connection was created under (for a connection made for a remote
      user that is the remote user's id). An end-of-candidates event emits nothing. */
  function LocalCandidate(s: Session, h: Handle, candidate: Option<Candidate>): (t: Session)
    ensures candidate.Some? && h < |s.peers| ==>
      t.log == s.log + [Emit(IceCandidate(s.roomId, candidate.value, s.peers[h]))]
    ensures !(candidate.Some? && h < |s.peers|) ==> t == s
    ensures t.pcRefs == s.pcRefs && t.videos == s.videos
  {
    if candidate.Some? && h < |s.peers| then
      s.(log := s.log + [Emit(IceCandidate(s.roomId, candidate.value, s.peers[h]))])
    else s
  }

  /** For a stored connection, the sender in its candidates is the key it is stored under. */
  lemma LocalCandidateSender(s: Session, u: string, c: Candidate)
    requires Valid(s) && u in s.pcRefs
    ensures LocalCandidate(s, s.pcRefs[u], Some(c)).log == s.log + [Emit(IceCandidate(s.roomId, c, u))]
  {
  }

  // ---------------------------------------------------------------------------------------
  // The video container

  /** removeVideo: with a container holding at least two videos, remove the one at index 1;
      otherwise nothing. */
  function RemoveVideo(videos: seq<Video>, containerShown: bool): (r: seq<Video>)
    ensures containerShown && |videos| >= 2 ==>
      |r| == |videos| - 1 && r[0] == videos[0] && forall i :: 1 <= i < |r| ==> r[i] == videos[i + 1]
    ensures !(containerShown && |videos| >= 2) ==> r == videos
  {
    if containerShown && |videos| >= 2 then videos[..1] + videos[2..] else videos
  }

  /** A track event: remove the second video, then append the remote stream's video to the
      container when it is shown. */
  function OnTrack(s: Session, stream: Stream): (t: Session)
    ensures Valid(s) && s.checked ==> t.videos == [LocalPreview, RemoteVideo(stream)]
    ensures !s.checked ==> t == s
  {
    var kept := RemoveVideo(s.videos, s.checked);
    s.(videos := if s.checked then kept + [RemoteVideo(stream)] else kept)
  }

  /** A `room-leave` event only removes the second video; no connection is closed and the
      registry keeps its entries. */
  function OnRoomLeave(s: Session): (t: Session)
    ensures t.pcRefs == s.pcRefs && t.log == s.log
    ensures Valid(s) && s.checked ==> t.videos == [LocalPreview]
  {
    s.(videos := RemoveVideo(s.videos, s.checked))
  }

  // ---------------------------------------------------------------------------------------
  // Joining, switching, toggles

  /** One round of the connected-users loop: set up a connection for `user`, then call. */
  function Connect(s: Session, user: string, setup: SetupOutcome, call: OfferOutcome): (t: Session)
    ensures s.log <= t.log
    ensures s.pcRefs.Keys <= t.pcRefs.Keys
    ensures t == s.(log := t.log, pcRefs := t.pcRefs, pcOrder := t.pcOrder, peers := t.peers,
                    localStream := t.localStream, preview := t.preview)
  {
    var prepared := SetupPeer(s, user, setup);
    assert s.log <= prepared.log;
    Initiate(prepared, user, call)
  }

  /** The connected-users effect: the loop over `users`, in order; the outcomes of each
      user's calls are given per user. */
  function ConnectUsers(s: Session, users: seq<string>, setup: string -> SetupOutcome,
                        call: string -> OfferOutcome): (t: Session)
    ensures s.log <= t.log
    ensures s.pcRefs.Keys <= t.pcRefs.Keys
    ensures t.checked == s.checked && t.userId == s.userId && t.videos == s.videos
    ensures t.connectedUsers == s.connectedUsers && t.closeOnCleanup == s.closeOnCleanup
  {
    if users == [] then s
    else
      var before := ConnectUsers(s, users[..|users| - 1], setup, call);
      var last := users[|users| - 1];
      Connect(before, last, setup(last), call(last))
  }

  /** One round's log: the setup calls for `user`, then the call to `user`, made with the
      registry as the setup left it. */
  lemma ConnectLog(s: Session, user: string, setup: SetupOutcome, call: OfferOutcome)
    ensures Connect(s, user, setup, call).log ==
      s.log + SetupLog(s, setup) + CallEffects(SetupPeer(s, user, setup).pcRefs, s.screenSharing, user, call)
  {
  }

  /** One more user in the loop: that user's setup calls, then that user's call, after
      everything the earlier users produced. */
  lemma ConnectUsersSnoc(s: Session, users: seq<string>, u: string, setup: string -> SetupOutcome,
                         call: string -> OfferOutcome)
    ensures var before := ConnectUsers(s, users, setup, call);
      ConnectUsers(s, users + [u], setup, call).log ==
        before.log + SetupLog(before, setup(u)) +
        CallEffects(SetupPeer(before, u, setup(u)).pcRefs, before.screenSharing, u, call(u))
  {
    assert (users + [u])[..|users|] == users;
    var before := ConnectUsers(s, users, setup, call);
    assert ConnectUsers(s, users + [u], setup, call) == Connect(before, u, setup(u), call(u));
    ConnectLog(before, u, setup(u), call(u));
  }

  lemma SliceAfterPrefix(p: seq<Effect>, q: seq<Effect>, x: seq<Effect>, y: seq<Effect>)
    requires p <= q
    ensures |p| <= |q + x + y| && (q + x + y)[|p|..] == q[|p|..] + x + y
  {
  }

  /** The signals among `effects` are offers to some of `users`, at most one per user. */
  predicate OffersOnly(effects: seq<Effect>, users: seq<string>) {
    && |Emits(effects)| <= |users|
    && forall sig :: sig in Emits(effects) ==> sig.Offer? && sig.targetUserId in users
  }

  lemma OffersOnlyStep(earlier: seq<Effect>, quiet: seq<Effect>, calls: seq<Effect>, init: seq<string>, u: string)
    requires OffersOnly(earlier, init) && Silent(quiet)
    requires |Emits(calls)| <= 1 && forall sig :: sig in Emits(calls) ==> sig.Offer? && sig.targetUserId == u
    ensures OffersOnly(earlier + quiet + calls, init + [u])
  {
    EmitsAroundSilent(earlier, quiet, calls);
    forall sig | sig in Emits(earlier) + Emits(calls) ensures sig.Offer? && sig.targetUserId in init + [u] {
      if sig in Emits(earlier) {
        assert sig.targetUserId in init;
      }
    }
  }

  /** The loop sends nothing but offers, each to one of the users, at most one per user. */
  lemma {:induction false} ConnectUsersOffers(s: Session, users: seq<string>, setup: string -> SetupOutcome,
                                              call: string -> OfferOutcome)
    ensures var t := ConnectUsers(s, users, setup, call);
      |s.log| <= |t.log| && OffersOnly(t.log[|s.log|..], users)
  {
    if users == [] {
      assert ConnectUsers(s, users, setup, call).log[|s.log|..] == [];
    } else {
      var init, u := users[..|users| - 1], users[|users| - 1];
      var before := ConnectUsers(s, init, setup, call);
      ConnectUsersOffers(s, init, setup, call);
      assert init + [u] == users;
      ConnectUsersSnoc(s, init, u, setup, call);
      var quiet := SetupLog(before, setup(u));
      var calls := CallEffects(SetupPeer(before, u, setup(u)).pcRefs, before.screenSharing, u, call(u));
      var earlier := before.log[|s.log|..];
      var t := ConnectUsers(s, users, setup, call);
      assert t.log == before.log + quiet + calls;
      SliceAfterPrefix(s.log, before.log, quiet, calls);
      OffersOnlyStep(earlier, quiet, calls, init, u);
    }
  }

  /** A `join-room` event replaces the connected users with the joining user alone; the
      effect that follows sets up and calls that user. */
  function OnJoinRoom(s: Session, otherUserId: string, setup: string -> SetupOutcome,
                      call: string -> OfferOutcome): (t: Session)
    ensures t.connectedUsers == [otherUserId]
    ensures s.pcRefs.Keys <= t.pcRefs.Keys
  {
    ConnectUsers(s.(connectedUsers := [otherUserId]), [otherUserId], setup, call)
  }

  /** After a `join-room`, the one signal sent (if any) is an offer to the joining user:
      the setup sends nothing, and the call at most that offer. */
  lemma OnJoinRoomOffersOnce(s: Session, otherUserId: string, setup: string -> SetupOutcome,
                             call: string -> OfferOutcome)
    ensures var t := OnJoinRoom(s, otherUserId, setup, call);
      s.log <= t.log && |Emits(t.log[|s.log|..])| <= 1 &&
      forall sig :: sig in Emits(t.log[|s.log|..]) ==> sig.Offer? && sig.targetUserId == otherUserId
  {
    ConnectUsersOffers(s.(connectedUsers := [otherUserId]), [otherUserId], setup, call);
  }

  /** The close-every-connection cleanup: close the connection under each key, in order. */
  function CloseEffects(pcRefs: map<string, Handle>, keys: seq<string>): (r: seq<Effect>)
    ensures |r| <= |keys|
    ensures forall e :: e in r ==> e.ClosePeer? && exists u :: u in keys && u in pcRefs && pcRefs[u] == e.handle
  {
    if keys == [] then []
    else
      var last := keys[|keys| - 1];
      var before := CloseEffects(pcRefs, keys[..|keys| - 1]);
      assert forall u :: u in keys[..|keys| - 1] ==> u in keys;
      before + if last in pcRefs then [ClosePeer(pcRefs[last])] else []
  }

  /** Every listed key's connection is closed. */
  lemma {:induction false} CloseEffectsCover(pcRefs: map<string, Handle>, keys: seq<string>, u: string)
    requires u in keys && u in pcRefs
    ensures ClosePeer(pcRefs[u]) in CloseEffects(pcRefs, keys)
  {
    if keys[|keys| - 1] != u {
      assert u in keys[..|keys| - 1];
      CloseEffectsCover(pcRefs, keys[..|keys| - 1], u);
    }
  }

  lemma {:induction false} CloseEffectsSilent(pcRefs: map<string, Handle>, keys: seq<string>)
    ensures Emits(CloseEffects(pcRefs, keys)) == []
  {
    if keys != [] {
      var last := keys[|keys| - 1];
      CloseEffectsSilent(pcRefs, keys[..|keys| - 1]);
      var tail := if last in pcRefs then [ClosePeer(pcRefs[last])] else [];
      EmitsAppend(CloseEffects(pcRefs, keys[..|keys| - 1]), tail);
      if last in pcRefs {
        EmitsOne(ClosePeer(pcRefs[last]));
      }
    }
  }

  /** The cleanup closes exactly the registry's connections and removes none of them. */
  lemma CloseAllClosesEveryEntry(s: Session)
    requires Valid(s)
    ensures forall u :: u in s.pcRefs ==> ClosePeer(s.pcRefs[u]) in CloseEffects(s.pcRefs, s.pcOrder)
    ensures forall e :: e in CloseEffects(s.pcRefs, s.pcOrder) ==>
      exists u :: u in s.pcRefs && e == ClosePeer(s.pcRefs[u])
  {
    forall u | u in s.pcRefs ensures ClosePeer(s.pcRefs[u]) in CloseEffects(s.pcRefs, s.pcOrder) {
      CloseEffectsCover(s.pcRefs, s.pcOrder, u);
    }
  }

  /** The previous run's cleanup: when that run found the huddle on, close every stored
      connection; nothing else changes. */
  function Cleanup(s: Session): (t: Session)
    ensures s.closeOnCleanup ==> t.log == s.log + CloseEffects(s.pcRefs, s.pcOrder)
    ensures !s.closeOnCleanup ==> t == s
    ensures t == s.(log := t.log)
  {
    if s.closeOnCleanup then s.(log := s.log + CloseEffects(s.pcRefs, s.pcOrder)) else s
  }

  /** The media effect's log: the previous run's closes, then, when the huddle is on, the
      setup calls and `join-room`. */
  lemma MediaEffectLog(s: Session, o: SetupOutcome)
    ensures MediaEffect(s, o).log ==
      s.log + (if s.closeOnCleanup then CloseEffects(s.pcRefs, s.pcOrder) else []) +
      (if s.checked then SetupLog(s, o) + [Emit(JoinRoom(s.roomId, s.userId))] else [])
  {
    var c := Cleanup(s);
    assert SetupLog(c, o) == SetupLog(s, o);
    if s.checked {
      SetupWebRTCJoinsOnce(c, o);
    }
  }

  /** The effect on `[checked, audioEnabled, screenSharing]`: the previous run's cleanup
      (closing every connection if that run found the huddle on), then, with the huddle on,
      setupWebRTC. */
  function MediaEffect(s: Session, o: SetupOutcome): (t: Session)
    ensures t.closeOnCleanup == s.checked
    ensures t.pcRefs == if s.checked && SetupStores(s, o) then s.pcRefs[s.userId := |s.peers|] else s.pcRefs
    ensures t.checked == s.checked && t.videos == s.videos
  {
    var cleaned := Cleanup(s);
    if s.checked then SetupWebRTC(cleaned, o).(closeOnCleanup := true)
    else cleaned.(closeOnCleanup := false)
  }

  /** The switch while the huddle is off: turn it on with a fresh container holding only
      the local preview, whose element has no stream yet. */
  function SwitchOn(s: Session): (t: Session)
    ensures t.checked && t.videos == [LocalPreview] && t.preview.None?
    ensures t.pcRefs == s.pcRefs && t.log == s.log
  {
    s.(checked := true, videos := [LocalPreview], preview := None)
  }

  /** The calls handleHuddleRequest makes after emitting `room-leave`: stop the preview
      stream's tracks, then close the user's own connection if there is one. Without a
      preview stream the `forEach` on `undefined` throws, so there are none. */
  function StopLog(s: Session): (r: seq<Effect>)
    ensures Silent(r)
    ensures s.preview.None? ==> r == []
    ensures forall i :: 0 <= i < |r| ==>
      r[i].StopTracks? || (s.userId in s.pcRefs && r[i] == ClosePeer(s.pcRefs[s.userId]))
  {
    if s.preview.None? then []
    else [StopTracks(s.preview.value)] + if s.userId in s.pcRefs then [ClosePeer(s.pcRefs[s.userId])] else []
  }

  /** handleHuddleRequest when switching off: emit `room-leave`, close the pop-up window,
      stop the preview's tracks and close the user's own connection. The container and the
      preview element go away with the switch. */
  function SwitchOff(s: Session): (t: Session)
    ensures !t.checked && t.videos == [] && t.preview.None? && !t.popupWindow
    ensures t.pcRefs == s.pcRefs
    ensures t.log == s.log + [Emit(RoomLeave(s.roomId, s.userId))] + StopLog(s)
    ensures Emits(t.log) == Emits(s.log) + [RoomLeave(s.roomId, s.userId)]
  {
    var leave := [Emit(RoomLeave(s.roomId, s.userId))];
    EmitsAppend(s.log + leave, StopLog(s));
    EmitsAppend(s.log, leave);
    EmitsOne(leave[0]);
    SilentEmits(StopLog(s));
    s.(log := s.log + leave + StopLog(s), popupWindow := false, checked := false, videos := [], preview := None)
  }

  /** Switching off closes no connection but the user's own, and only when a preview
      stream was showing. */
  lemma SwitchOffClosesOnlyOwn(s: Session)
    ensures var t := SwitchOff(s);
      forall i :: |s.log| <= i < |t.log| && t.log[i].ClosePeer? ==>
        s.preview.Some? && s.userId in s.pcRefs && t.log[i].handle == s.pcRefs[s.userId]
  {
    var t := SwitchOff(s);
    forall i | |s.log| <= i < |t.log| && t.log[i].ClosePeer?
      ensures s.preview.Some? && s.userId in s.pcRefs && t.log[i].handle == s.pcRefs[s.userId]
    {
      assert i > |s.log|;
      assert t.log[i] == StopLog(s)[i - |s.log| - 1];
    }
  }

  /** toggleVideo: with a stream that has a video track, set the track's `enabled` to the
      negated flag and flip the flag; without a stream (the `!` assertion fails) or
      without a video track, nothing changes. */
  function ToggleVideo(s: Session): (t: Session)
    ensures s.localStream.Some? && s.localStream.value.hasVideo ==>
      t.videoEnabled == !s.videoEnabled && t.log == s.log + [EnableVideoTrack(s.localStream.value, !s.videoEnabled)]
    ensures !(s.localStream.Some? && s.localStream.value.hasVideo) ==> t == s
    ensures t.pcRefs == s.pcRefs
  {
    if s.localStream.None? || !s.localStream.value.hasVideo then s
    else s.(videoEnabled := !s.videoEnabled, log := s.log + [EnableVideoTrack(s.localStream.value, !s.videoEnabled)])
  }

  // ---------------------------------------------------------------------------------------
  // Events

  /** What can happen to a huddle, with the outcomes of the browser calls it causes. */
  datatype Event =
    | SwitchClicked(media: SetupOutcome)
    | ShareClicked(media: SetupOutcome)
    | MicClicked(media: SetupOutcome)
    | VideoClicked
    | PopupClicked
    | JoinRoomReceived(otherUserId: string, setup: string -> SetupOutcome, call: string -> OfferOutcome)
    | OfferReceived(offer: Sdp, senderUserId: string, answer: AnswerOutcome)
    | AnswerReceived(sdp: Sdp, senderUserId: string)
    | IceReceived(built: Option<Candidate>, secondArg: Option<string>)
    | RoomLeaveReceived
    | LocalIceCandidate(handle: Handle, candidate: Option<Candidate>)
    | TrackReceived(stream: Stream)

  /** One event: the handler it runs, followed by the media effect when the event changes
      one of that effect's dependencies. */
  function Apply(s: Session, e: Event): Session {
    match e
    case SwitchClicked(o) => MediaEffect(if s.checked then SwitchOff(s) else SwitchOn(s), o)
    case ShareClicked(o) => MediaEffect(s.(screenSharing := !s.screenSharing), o)
    case MicClicked(o) => MediaEffect(s.(audioEnabled := !s.audioEnabled), o)
    case VideoClicked => ToggleVideo(s)
    case PopupClicked => s.(popupWindow := !s.popupWindow)
    case JoinRoomReceived(other, setup, call) => OnJoinRoom(s, other, setup, call)
    case OfferReceived(offer, sender, o) => s.(log := s.log + OfferEffects(s.pcRefs, offer, sender, o))
    case AnswerReceived(answer, sender) => s.(log := s.log + AnswerEffects(s.pcRefs, answer, sender))
    case IceReceived(built, second) => s.(log := s.log + IceEffects(s.pcRefs, built, second))
    case RoomLeaveReceived => OnRoomLeave(s)
    case LocalIceCandidate(h, c) => LocalCandidate(s, h, c)
    case TrackReceived(stream) => OnTrack(s, stream)
  }

  function Run(s: Session, events: seq<Event>): Session
    decreases |events|
  {
    if events == [] then s else Run(Apply(s, events[0]), events[1..])
  }

  lemma {:induction false} ConnectUsersValid(s: Session, users: seq<string>, setup: string -> SetupOutcome,
                                             call: string -> OfferOutcome)
    requires Valid(s)
    ensures Valid(ConnectUsers(s, users, setup, call))
  {
    if users != [] {
      var last := users[|users| - 1];
      ConnectUsersValid(s, users[..|users| - 1], setup, call);
      SetupPeerValid(ConnectUsers(s, users[..|users| - 1], setup, call), last, setup(last));
    }
  }

  lemma MediaEffectValid(s: Session, o: SetupOutcome)
    requires Valid(s)
    ensures Valid(MediaEffect(s, o))
  {
    var cleaned := Cleanup(s);
    if s.checked {
      SetupPeerValid(cleaned, cleaned.userId, o);
    }
  }

  /** The validity of a session does not depend on its log or its flags. */
  lemma ValidFrame(s: Session, t: Session)
    requires Valid(s)
    requires t.pcRefs == s.pcRefs && t.pcOrder == s.pcOrder && t.peers == s.peers
    requires t.checked == s.checked && t.videos == s.videos && t.preview == s.preview
    ensures Valid(t)
  {
  }

  lemma SwitchValid(s: Session, o: SetupOutcome)
    requires Valid(s)
    ensures Valid(MediaEffect(if s.checked then SwitchOff(s) else SwitchOn(s), o))
  {
    var u := if s.checked then SwitchOff(s) else SwitchOn(s);
    assert Valid(u);
    MediaEffectValid(u, o);
  }

  lemma TrackValid(s: Session, stream: Stream)
    requires Valid(s)
    ensures Valid(OnTrack(s, stream))
  {
  }

  lemma RoomLeaveValid(s: Session)
    requires Valid(s)
    ensures Valid(OnRoomLeave(s))
  {
  }

  /** The huddle's own buttons, as opposed to the socket listeners and the connections'
      callbacks. */
  predicate IsControl(e: Event) {
    e.SwitchClicked? || e.ShareClicked? || e.MicClicked? || e.VideoClicked? || e.PopupClicked?
  }

  /** Every handler keeps the session valid. */
  lemma ApplyValid(s: Session, e: Event)
    requires Valid(s)
    ensures Valid(Apply(s, e))
  {
    if IsControl(e) {
      ControlValid(s, e);
    } else {
      SignalValid(s, e);
    }
  }

  lemma ControlValid(s: Session, e: Event)
    requires Valid(s) && IsControl(e)
    ensures Valid(Apply(s, e))
  {
    if e.VideoClicked? {
      ValidFrame(s, ToggleVideo(s));
    } else if e.PopupClicked? {
      ValidFrame(s, s.(popupWindow := !s.popupWindow));
    } else {
      MediaControlValid(s, e);
    }
  }

  lemma MediaControlValid(s: Session, e: Event)
    requires Valid(s) && (e.SwitchClicked? || e.ShareClicked? || e.MicClicked?)
    ensures Valid(Apply(s, e))
  {
    match e
    case SwitchClicked(o) => SwitchValid(s, o);
    case ShareClicked(o) => MediaEffectValid(s.(screenSharing := !s.screenSharing), o);
    case MicClicked(o) => MediaEffectValid(s.(audioEnabled := !s.audioEnabled), o);
  }

  lemma SignalValid(s: Session, e: Event)
    requires Valid(s) && !IsControl(e)
    ensures Valid(Apply(s, e))
  {
    if e.JoinRoomReceived? || e.RoomLeaveReceived? || e.TrackReceived? {
      PeerSignalValid(s, e);
    } else {
      LogSignalValid(s, e);
    }
  }

  lemma PeerSignalValid(s: Session, e: Event)
    requires Valid(s) && (e.JoinRoomReceived? || e.RoomLeaveReceived? || e.TrackReceived?)
    ensures Valid(Apply(s, e))
  {
    match e
    case JoinRoomReceived(other, setup, call) =>
      ConnectUsersValid(s.(connectedUsers := [other]), [other], setup, call);
    case RoomLeaveReceived => RoomLeaveValid(s);
    case TrackReceived(stream) => TrackValid(s, stream);
  }

  lemma LogSignalValid(s: Session, e: Event)
    requires Valid(s) && (e.OfferReceived? || e.AnswerReceived? || e.IceReceived? || e.LocalIceCandidate?)
    ensures Valid(Apply(s, e))
  {
    match e
    case OfferReceived(offer, sender, o) => LogOnlyValid(s, s.log + OfferEffects(s.pcRefs, offer, sender, o));
    case AnswerReceived(answer, sender) => LogOnlyValid(s, s.log + AnswerEffects(s.pcRefs, answer, sender));
    case IceReceived(built, second) => LogOnlyValid(s, s.log + IceEffects(s.pcRefs, built, second));
    case LocalIceCandidate(h, c) => LogOnlyValid(s, LocalCandidate(s, h, c).log);
  }

  /** Appending to the log alone keeps the registry consistent. */
  lemma LogOnlyValid(s: Session, log: seq<Effect>)
    requires Valid(s)
    ensures Valid(s.(log := log))
  {
  }

  /** Every handler keeps the registry's keys: no entry is ever deleted. */
  lemma ApplyKeepsKeys(s: Session, e: Event)
    ensures s.pcRefs.Keys <= Apply(s, e).pcRefs.Keys
  {
    if IsControl(e) {
      ControlKeepsKeys(s, e);
    } else {
      SignalKeepsKeys(s, e);
    }
  }

  lemma ControlKeepsKeys(s: Session, e: Event)
    requires IsControl(e)
    ensures s.pcRefs.Keys <= Apply(s, e).pcRefs.Keys
  {
    match e
    case SwitchClicked(o) =>
      var u := if s.checked then SwitchOff(s) else SwitchOn(s);
      assert u.pcRefs == s.pcRefs;
      MediaEffectKeepsKeys(u, o);
    case ShareClicked(o) => MediaEffectKeepsKeys(s.(screenSharing := !s.screenSharing), o);
    case MicClicked(o) => MediaEffectKeepsKeys(s.(audioEnabled := !s.audioEnabled), o);
    case VideoClicked =>
    case PopupClicked =>
  }

  lemma MediaEffectKeepsKeys(s: Session, o: SetupOutcome)
    ensures s.pcRefs.Keys <= MediaEffect(s, o).pcRefs.Keys
  {
  }

  lemma SignalKeepsKeys(s: Session, e: Event)
    requires !IsControl(e)
    ensures s.pcRefs.Keys <= Apply(s, e).pcRefs.Keys
  {
    match e
    case JoinRoomReceived(other, setup, call) =>
      assert s.pcRefs == s.(connectedUsers := [other]).pcRefs;
    case OfferReceived(offer, sender, o) =>
    case AnswerReceived(answer, sender) =>
    case IceReceived(built, second) =>
    case RoomLeaveReceived =>
    case LocalIceCandidate(h, c) =>
    case TrackReceived(stream) =>
  }

  lemma MediaEffectExtendsLog(s: Session, o: SetupOutcome)
    ensures s.log <= MediaEffect(s, o).log
  {
    assert s.log <= Cleanup(s).log;
  }

  /** Every handler only appends to the log. */
  lemma ApplyExtendsLog(s: Session, e: Event)
    ensures s.log <= Apply(s, e).log
  {
    if IsControl(e) {
      ControlExtendsLog(s, e);
    } else {
      SignalExtendsLog(s, e);
    }
  }

  lemma ControlExtendsLog(s: Session, e: Event)
    requires IsControl(e)
    ensures s.log <= Apply(s, e).log
  {
    if e.VideoClicked? {
      assert s.log <= ToggleVideo(s).log;
    } else if !e.PopupClicked? {
      MediaControlExtendsLog(s, e);
    }
  }

  lemma MediaControlExtendsLog(s: Session, e: Event)
    requires e.SwitchClicked? || e.ShareClicked? || e.MicClicked?
    ensures s.log <= Apply(s, e).log
  {
    match e
    case SwitchClicked(o) =>
      var u := if s.checked then SwitchOff(s) else SwitchOn(s);
      assert s.log <= u.log;
      MediaEffectExtendsLog(u, o);
    case ShareClicked(o) => MediaEffectExtendsLog(s.(screenSharing := !s.screenSharing), o);
    case MicClicked(o) => MediaEffectExtendsLog(s.(audioEnabled := !s.audioEnabled), o);
  }

  lemma SignalExtendsLog(s: Session, e: Event)
    requires !IsControl(e)
    ensures s.log <= Apply(s, e).log
  {
    match e
    case JoinRoomReceived(other, setup, call) =>
      assert s.log == s.(connectedUsers := [other]).log;
    case OfferReceived(offer, sender, o) =>
    case AnswerReceived(answer, sender) =>
    case IceReceived(built, second) =>
    case RoomLeaveReceived =>
    case LocalIceCandidate(h, c) =>
    case TrackReceived(stream) =>
  }

  /** Over any run of events the session stays valid, no registry key disappears, and the
      log only grows. */
  lemma {:induction false} RunInvariants(s: Session, events: seq<Event>)
    requires Valid(s)
    decreases |events|
    ensures var t := Run(s, events);
      Valid(t) && s.pcRefs.Keys <= t.pcRefs.Keys && s.log <= t.log
  {
    if events != [] {
      ApplyValid(s, events[0]);
      ApplyKeepsKeys(s, events[0]);
      ApplyExtendsLog(s, events[0]);
      RunInvariants(Apply(s, events[0]), events[1..]);
    }
  }

  /** From a session that is off and has no cleanup pending, the switch is setupWebRTC on
      the switched-on session, leaving the close-every-connection cleanup behind. */
  lemma SwitchOnStep(s: Session, o: SetupOutcome)
    requires !s.checked && !s.closeOnCleanup
    ensures Apply(s, SwitchClicked(o)) == SetupWebRTC(SwitchOn(s), o).(closeOnCleanup := true)
  {
    var u := SwitchOn(s);
    assert Apply(s, SwitchClicked(o)) == MediaEffect(u, o);
    assert u.checked && !u.closeOnCleanup;
  }

  /** Switching on with a camera that works and tracks that attach: the connection is
      stored under the user's own id, and the only signal sent is `join-room`. */
  lemma SwitchOnScenario(userId: string, roomId: Option<string>, stream: Stream)
    ensures var t := Apply(Initial(userId, roomId, false), SwitchClicked(SetupOutcome(Some(stream), true)));
      t.checked && t.pcRefs == map[userId := 0] && t.peers == [userId] &&
      Emits(t.log) == [JoinRoom(roomId, userId)] &&
      t.log == [RequestCamera(false), CreatePeer(0), AddTracks(0, stream), Emit(JoinRoom(roomId, userId))]
  {
    var s0 := Initial(userId, roomId, false);
    var s1 := SwitchOn(s0);
    var o := SetupOutcome(Some(stream), true);
    var w := SetupWebRTC(s1, o);
    SwitchOnStep(s0, o);
    SetupWebRTCJoinsOnce(s1, o);
    assert SetupLog(s1, o) == [RequestCamera(false), CreatePeer(0), AddTracks(0, stream)];
    assert w.peers == SetupPeer(s1, userId, o).peers == [userId];
  }
}

/** components/huddle.tsx as the component holds it: refs and state slots updated in place
    by its handlers. Each method is proved to move the fields exactly as the matching
    transition of HuddleModel moves a session, so every property proved there holds here. */
module HuddleSession {
  import opened Common
  import opened HuddleModel

  class Huddle {
    const userId: string
    const roomId: Option<string>
    var checked: bool
    var popupWindow: bool
    var videoEnabled: bool
    var audioEnabled: bool
    var screenSharing: bool
    var connectedUsers: seq<string>
    var pcRefs: map<string, Handle>
    var pcOrder: seq<string>
    var peers: seq<string>
    var localStream: Option<Stream>
    var preview: Option<Stream>
    var videos: seq<Video>
    var closeOnCleanup: bool
    var log: seq<Effect>

    /** The fields as a session value. */
    function Model(): Session
      reads this
    {
      Session(userId, roomId, checked, popupWindow, videoEnabled, audioEnabled, screenSharing,
              connectedUsers, pcRefs, pcOrder, peers, localStream, preview, videos, closeOnCleanup, log)
    }

    constructor (userId: string, roomId: Option<string>, popupWindow: bool)
      ensures Model() == Initial(userId, roomId, popupWindow)
    {
      this.userId, this.roomId := userId, roomId;
      checked, this.popupWindow := false, popupWindow;
      videoEnabled, audioEnabled, screenSharing := true, false, false;
      connectedUsers, pcRefs, pcOrder, peers := [], map[], [], [];
      localStream, preview, videos := None, None, [];
      closeOnCleanup, log := false, [];
    }

    /** setupPeerConnection(user): the media request, then the connection. */
    method SetupPeerConnection(user: string, o: SetupOutcome)
      modifies this`localStream, this`preview, this`peers, this`pcOrder, this`pcRefs, this`log
      ensures Model() == SetupPeer(old(Model()), user, o)
    {
      RequestMedia(o);
      CreateConnection(user, o);
    }

    /** getDisplayMedia while sharing, else getUserMedia; keep the stream it yields. */
    method RequestMedia(o: SetupOutcome)
      modifies this`localStream, this`log
      ensures Model() == MediaRequested(old(Model()), o)
    {
      log := log + [if screenSharing then RequestDisplay else RequestCamera(audioEnabled)];
      if o.media.Some? {
        localStream := o.media;
      }
    }

    /** Show the stream in the preview, create the connection, add the tracks, store it. */
    method CreateConnection(user: string, o: SetupOutcome)
      modifies this`preview, this`peers, this`pcOrder, this`pcRefs, this`log
      ensures Model() == ConnectionCreated(old(Model()), user, o)
    {
      if o.media.None? {
        return;  // the media request was rejected
      }
      if !checked {
        return;  // there is no preview element and the srcObject assignment throws
      }
      // show the stream, create the connection and add the tracks; store it only when
      // adding the tracks succeeded
      var h := |peers|;
      var refs, order := pcRefs, pcOrder;
      if o.tracksAdded {
        refs := pcRefs[user := h];
        if user !in pcRefs {
          order := pcOrder + [user];
        }
      }
      preview, peers, log, pcRefs, pcOrder :=
        o.media, peers + [user], log + [CreatePeer(h), AddTracks(h, o.media.value)], refs, order;
    }

    /** setupWebRTC. */
    method SetupWebRTC(o: SetupOutcome)
      modifies this`localStream, this`preview, this`peers, this`pcOrder, this`pcRefs, this`log
      ensures Model() == HuddleModel.SetupWebRTC(old(Model()), o)
    {
      SetupPeerConnection(userId, o);
      log := log + [Emit(JoinRoom(roomId, userId))];
    }

    /** initiateCall(user). */
    method InitiateCall(user: string, o: OfferOutcome)
      modifies this`log
      ensures Model() == Initiate(old(Model()), user, o)
    {
      if user !in pcRefs {
        log := log + [Emit(Offer(None, user))];
        return;
      }
      var pc := pcRefs[user];
      log := log + [CreateOffer(pc, !screenSharing)];
      if o.offer.None? {
        return;
      }
      log := log + [SetLocal(pc, o.offer.value)];
      if !o.localSet {
        return;
      }
      log := log + [Emit(Offer(o.offer, user))];
    }

    /** handleOffer(offer, senderUserId). */
    method HandleOffer(offer: Sdp, senderUserId: string, o: AnswerOutcome)
      modifies this`log
      ensures log == old(log) + OfferEffects(pcRefs, offer, senderUserId, o)
    {
      if senderUserId !in pcRefs {
        return;  // reading a method of `undefined` throws
      }
      var pc := pcRefs[senderUserId];
      log := log + [SetRemote(pc, offer)];
      if !o.remoteSet {
        return;
      }
      log := log + [CreateAnswer(pc)];
      if o.answer.None? {
        return;
      }
      log := log + [SetLocal(pc, o.answer.value)];
      if !o.localSet {
        return;
      }
      log := log + [Emit(Answer(o.answer.value, senderUserId))];
    }

    /** handleAnswer(answer, senderUserId). */
    method HandleAnswer(answer: Sdp, senderUserId: string)
      modifies this`log
      ensures log == old(log) + AnswerEffects(pcRefs, answer, senderUserId)
    {
      if senderUserId in pcRefs {
        log := log + [SetRemote(pcRefs[senderUserId], answer)];
      }
    }

    /** The `ice-candidate` listener with its two positional arguments. */
    method HandleIceCandidate(built: Option<Candidate>, secondArg: Option<string>)
      modifies this`log
      ensures log == old(log) + IceEffects(pcRefs, built, secondArg)
    {
      if built.None? {
        return;  // the RTCIceCandidate constructor threw
      }
      var key := IceKey(secondArg);
      if key in pcRefs {
        log := log + [AddCandidate(pcRefs[key], built.value)];
      }
    }

    /** The onicecandidate of connection `h`. */
    method OnLocalCandidate(h: Handle, candidate: Option<Candidate>)
      modifies this`log
      ensures Model() == LocalCandidate(old(Model()), h, candidate)
    {
      if candidate.Some? && h < |peers| {
        log := log + [Emit(IceCandidate(roomId, candidate.value, peers[h]))];
      }
    }

    /** removeVideo. */
    method RemoveVideo()
      modifies this`videos
      ensures videos == HuddleModel.RemoveVideo(old(videos), checked)
    {
      if checked && |videos| >= 2 {
        videos := videos[..1] + videos[2..];
      }
    }

    /** A connection's ontrack. */
    method OnTrack(stream: Stream)
      modifies this`videos
      ensures Model() == HuddleModel.OnTrack(old(Model()), stream)
    {
      RemoveVideo();
      if checked {
        videos := videos + [RemoteVideo(stream)];
      }
    }

    /** The `room-leave` listener. */
    method OnRoomLeave()
      modifies this`videos
      ensures Model() == HuddleModel.OnRoomLeave(old(Model()))
    {
      RemoveVideo();
    }

    /** The `join-room` listener, then the connected-users effect it triggers. */
    method OnJoinRoom(otherUserId: string, setup: string -> SetupOutcome, call: string -> OfferOutcome)
      modifies this`connectedUsers, this`localStream, this`preview, this`peers, this`pcOrder, this`pcRefs, this`log
      ensures Model() == HuddleModel.OnJoinRoom(old(Model()), otherUserId, setup, call)
    {
      ghost var s := Model();
      connectedUsers := [otherUserId];
      assert Model() == s.(connectedUsers := [otherUserId]);
      SetupPeerConnections(setup, call);
    }

    /** One round of the connected-users loop. */
    method ConnectUser(user: string, setup: SetupOutcome, call: OfferOutcome)
      modifies this`localStream, this`preview, this`peers, this`pcOrder, this`pcRefs, this`log
      ensures Model() == Connect(old(Model()), user, setup, call)
    {
      SetupPeerConnection(user, setup);
      InitiateCall(user, call);
    }

    /** The connected-users effect: for each key in order, set up a connection, then call. */
    method SetupPeerConnections(setup: string -> SetupOutcome, call: string -> OfferOutcome)
      modifies this`localStream, this`preview, this`peers, this`pcOrder, this`pcRefs, this`log
      ensures Model() == ConnectUsers(old(Model()), old(connectedUsers), setup, call)
    {
      var users := connectedUsers;
      var i := 0;
      while i < |users|
        invariant 0 <= i <= |users|
        invariant Model() == ConnectUsers(old(Model()), users[..i], setup, call)
      {
        ConnectUser(users[i], setup(users[i]), call(users[i]));
        assert users[..i + 1][..i] == users[..i];
        i := i + 1;
      }
      assert users[..i] == users;
    }

    /** The cleanup that closes every connection in the registry, in key order. */
    method CloseAll()
      modifies this`log
      ensures log == old(log) + CloseEffects(pcRefs, pcOrder)
    {
      var i := 0;
      while i < |pcOrder|
        invariant 0 <= i <= |pcOrder|
        invariant log == old(log) + CloseEffects(pcRefs, pcOrder[..i])
      {
        var user := pcOrder[i];
        if user in pcRefs {
          log := log + [ClosePeer(pcRefs[user])];
        }
        assert pcOrder[..i + 1][..i] == pcOrder[..i];
        i := i + 1;
      }
      assert pcOrder[..i] == pcOrder;
    }

    /** The previous effect run's cleanup. */
    method Cleanup()
      modifies this`log
      ensures Model() == HuddleModel.Cleanup(old(Model()))
    {
      if closeOnCleanup {
        CloseAll();
      }
    }

    /** The effect on `[checked, audioEnabled, screenSharing]`: the last run's cleanup, then
        setupWebRTC when the huddle is on. */
    method MediaEffect(o: SetupOutcome)
      modifies this`closeOnCleanup, this`localStream, this`preview, this`peers, this`pcOrder, this`pcRefs, this`log
      ensures Model() == HuddleModel.MediaEffect(old(Model()), o)
    {
      Cleanup();
      if checked {
        SetupWebRTC(o);
        closeOnCleanup := true;
      } else {
        closeOnCleanup := false;
      }
    }

    /** The switch while the huddle is off. */
    method SwitchOn()
      modifies this`checked, this`videos, this`preview
      ensures Model() == HuddleModel.SwitchOn(old(Model()))
    {
      checked := true;
      videos := [LocalPreview];
      preview := None;
    }

    /** handleHuddleRequest, switching off. */
    method HandleHuddleRequest()
      modifies this`log, this`popupWindow, this`checked, this`videos, this`preview
      ensures Model() == SwitchOff(old(Model()))
    {
      // the `forEach` on an undefined preview throws before anything is stopped or closed
      var stops: seq<Effect> := [];
      if preview.Some? {
        stops := [StopTracks(preview.value)];
        if userId in pcRefs {
          stops := stops + [ClosePeer(pcRefs[userId])];
        }
      }
      log, popupWindow, checked, videos, preview :=
        log + [Emit(RoomLeave(roomId, userId))] + stops, false, false, [], None;
    }

    /** toggleVideo. */
    method ToggleVideo()
      modifies this`videoEnabled, this`log
      ensures Model() == HuddleModel.ToggleVideo(old(Model()))
    {
      if localStream.None? {
        return;  // the non-null assertion on the stream fails
      }
      if localStream.value.hasVideo {
        log := log + [EnableVideoTrack(localStream.value, !videoEnabled)];
        videoEnabled := !videoEnabled;
      }
    }

    /** toggleAudio; the media effect runs next. */
    method ToggleAudio()
      modifies this`audioEnabled
      ensures audioEnabled == !old(audioEnabled)
    {
      audioEnabled := !audioEnabled;
    }

    /** startScreenSharing / stopScreenSharing; the media effect runs next. */
    method SetScreenSharing(on: bool)
      modifies this`screenSharing
      ensures screenSharing == on
    {
      screenSharing := on;
    }

    /** The pop-up button. */
    method TogglePopup()
      modifies this`popupWindow
      ensures popupWindow == !old(popupWindow)
    {
      popupWindow := !popupWindow;
    }

    /** The huddle switch: handleHuddleRequest or the switch-on, then the media effect. */
    method SwitchClicked(o: SetupOutcome)
      modifies this
      ensures Model() == HuddleModel.MediaEffect(if old(checked) then SwitchOff(old(Model())) else HuddleModel.SwitchOn(old(Model())), o)
    {
      if checked {
        HandleHuddleRequest();
      } else {
        SwitchOn();
      }
      MediaEffect(o);
    }

    /** The share button, then the media effect. */
    method ShareClicked(o: SetupOutcome)
      modifies this
      ensures Model() == HuddleModel.MediaEffect(old(Model()).(screenSharing := !old(screenSharing)), o)
    {
      ghost var s := Model();
      SetScreenSharing(!screenSharing);
      assert Model() == s.(screenSharing := !s.screenSharing);
      MediaEffect(o);
    }

    /** The microphone button, then the media effect. */
    method MicClicked(o: SetupOutcome)
      modifies this
      ensures Model() == HuddleModel.MediaEffect(old(Model()).(audioEnabled := !old(audioEnabled)), o)
    {
      ghost var s := Model();
      ToggleAudio();
      assert Model() == s.(audioEnabled := !s.audioEnabled);
      MediaEffect(o);
    }

    /** One event, as Apply describes it: the handler, then the effect it triggers. */
    method Handle(e: Event)
      modifies this
      ensures Model() == Apply(old(Model()), e)
    {
      if e.SwitchClicked? || e.ShareClicked? || e.MicClicked? || e.VideoClicked? || e.PopupClicked? {
        HandleControl(e);
      } else {
        HandleSignal(e);
      }
    }

    /** The huddle's own buttons. */
    method HandleControl(e: Event)
      requires e.SwitchClicked? || e.ShareClicked? || e.MicClicked? || e.VideoClicked? || e.PopupClicked?
      modifies this
      ensures Model() == Apply(old(Model()), e)
    {
      match e
      case SwitchClicked(o) => SwitchClicked(o);
      case ShareClicked(o) => ShareClicked(o);
      case MicClicked(o) => MicClicked(o);
      case VideoClicked => ToggleVideo();
      case PopupClicked => TogglePopup();
    }

    /** The socket listeners and the connections' callbacks. */
    method HandleSignal(e: Event)
      requires !(e.SwitchClicked? || e.ShareClicked? || e.MicClicked? || e.VideoClicked? || e.PopupClicked?)
      modifies this
      ensures Model() == Apply(old(Model()), e)
    {
      match e
      case JoinRoomReceived(other, setup, call) => OnJoinRoom(other, setup, call);
      case OfferReceived(offer, sender, o) => HandleOffer(offer, sender, o);
      case AnswerReceived(answer, sender) => HandleAnswer(answer, sender);
      case IceReceived(built, second) => HandleIceCandidate(built, second);
      case RoomLeaveReceived => OnRoomLeave();
      case LocalIceCandidate(h, c) => OnLocalCandidate(h, c);
      case TrackReceived(stream) => OnTrack(stream);
    }
  }
}

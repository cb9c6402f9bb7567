/**
 * The browser call driver of trial/app.js: the module-level `targetId`,
 * `peerConnection` and `localStream`, the socket.io handlers, and the
 * functions `startCall`, `answerCall`, `createPeerConnection` and `endCall`.
 *
 * Socket.io emits are recorded in the log `sent`; the WebRTC and media calls
 * the driver makes are recorded, in order, in the log `rtc`. Each handler
 * runs to completion before the next event (its awaits are not interleaved).
 */
module CallClient {
  import opened Options

  /** `selfId`. */
  const SelfId := "commander"

  /** The target `startCall` dials. */
  const CalleeId := "soldier1"

  /** A session description, opaque to the driver. */
  datatype Sdp = Sdp(text: string)

  /** An ICE candidate, opaque to the driver. */
  datatype Candidate = Candidate(text: string)

  /** An `RTCPeerConnection` and a `MediaStream`, as opaque handles. */
  datatype Peer = Peer(handle: nat)
  datatype Stream = Stream(handle: nat)

  /** One `socket.emit(event, payload)`; `to` is the value `targetId` had, None for null or undefined. */
  datatype Emission =
    | Join(selfId: string)
    | Offer(offer: Sdp, to: Option<string>)
    | Answer(answer: Sdp, to: Option<string>)
    | IceCandidate(candidate: Candidate, to: Option<string>)
    | EndCall(to: Option<string>)

  /** One call into WebRTC or the media devices. */
  datatype RtcCall =
    | NewPeer(peer: Peer)                     // new RTCPeerConnection(...)
    | OpenMic(peer: Peer, stream: Stream)     // getUserMedia resolved; its tracks added to the peer
    | SetLocal(peer: Peer, sdp: Sdp)
    | SetRemote(peer: Peer, sdp: Sdp)
    | AddIce(peer: Peer, candidate: Candidate)
    | StopTracks(stream: Stream)
    | ClosePeer(peer: Peer)

  /**
   * How the media layer answers one call set-up: everything works, or
   * `getUserMedia` rejects, or the first description step after it rejects
   * (`createOffer` when calling, `setRemoteDescription` when answering).
   */
  datatype Media = Works | MicDenied | NegotiationFails

  /** Something the driver reacts to. */
  datatype Event =
    | Connect                                                    // socket "connect"
    | OfferIn(from: Option<string>, offer: Sdp, media: Media, answer: Sdp)  // socket "offer"; `answer` is what createAnswer gives
    | AnswerIn(answer: Sdp)                                      // socket "answer"
    | CandidateIn(candidate: Candidate)                          // socket "ice-candidate"
    | EndCallIn                                                  // socket "end-call"
    | MicClick(media: Media, offer: Sdp)                         // micBtn; `offer` is what createOffer gives
    | EndClick                                                   // endBtn
    | LocalCandidate(peer: Peer, gathered: Option<Candidate>)    // an icecandidate event on `peer`

  /**
   * The driver's state: the three module variables, the peers whose
   * `onicecandidate` handler is installed and that are not closed, the two
   * logs, and the next unused handle.
   */
  datatype Client = Client(targetId: Option<string>, peer: Option<Peer>, stream: Option<Stream>,
                           listening: set<Peer>, sent: seq<Emission>, rtc: seq<RtcCall>, next: nat)

  const Initial := Client(None, None, None, {}, [], [], 0)

  /** JavaScript truthiness of `targetId`: not null or undefined, and not the empty string. */
  predicate Truthy(t: Option<string>)
  {
    t.Some? && t.value != ""
  }

  /** The emission is addressed (every kind but `join`). */
  predicate Addressed(m: Emission)
  {
    !m.Join?
  }

  /** The messages `r` emitted beyond those of `s`. */
  function Emitted(s: Client, r: Client): seq<Emission>
    requires s.sent <= r.sent
  {
    r.sent[|s.sent|..]
  }

  /**
   * `createPeerConnection`: a fresh peer becomes `peerConnection` at once;
   * only when the microphone opens does `localStream` change and the peer get
   * its `onicecandidate` handler.
   */
  function CreatePeerStep(s: Client, media: Media): (r: Client)
    ensures r.peer == Some(Peer(s.next)) && (HandlesIssued(s) ==> Peer(s.next) !in s.listening)
    ensures HandlesIssued(s) ==> HandlesIssued(r)
    ensures r.targetId == s.targetId && r.sent == s.sent && s.rtc <= r.rtc && r.next > s.next
    ensures media == MicDenied ==> r.stream == s.stream && r.listening == s.listening
    ensures media != MicDenied ==> r.listening == s.listening + {Peer(s.next)} && r.stream == Some(Stream(s.next + 1))
  {
    var pc := Peer(s.next);
    var s1 := s.(peer := Some(pc), rtc := s.rtc + [NewPeer(pc)], next := s.next + 1);
    if media == MicDenied then
      s1
    else
      var st := Stream(s1.next);
      s1.(stream := Some(st), rtc := s1.rtc + [OpenMic(pc, st)],
          listening := s1.listening + {pc}, next := s1.next + 1)
  }

  /** `startCall`: dial `soldier1`, then offer when the media layer lets it. */
  function StartCallStep(s: Client, media: Media, offer: Sdp): (r: Client)
    ensures r.targetId == Some(CalleeId) && r.peer == Some(Peer(s.next))
    ensures s.sent <= r.sent
    ensures Emitted(s, r) == if media == Works then [Offer(offer, r.targetId)] else []
  {
    var s1 := CreatePeerStep(s.(targetId := Some(CalleeId)), media);
    if media != Works then
      s1
    else
      s1.(rtc := s1.rtc + [SetLocal(s1.peer.value, offer)], sent := s1.sent + [Offer(offer, s1.targetId)])
  }

  /** `answerCall(offer)`: answer to whatever `targetId` is when it runs. */
  function AnswerCallStep(s: Client, offer: Sdp, media: Media, answer: Sdp): (r: Client)
    ensures r.targetId == s.targetId && r.peer == Some(Peer(s.next))
    ensures s.sent <= r.sent
    ensures Emitted(s, r) == if media == Works then [Answer(answer, s.targetId)] else []
  {
    var s1 := CreatePeerStep(s, media);
    if media == MicDenied then
      s1
    else
      var pc := s1.peer.value;
      var s2 := s1.(rtc := s1.rtc + [SetRemote(pc, offer)]);
      if media == NegotiationFails then
        s2
      else
        s2.(rtc := s2.rtc + [SetLocal(pc, answer)], sent := s2.sent + [Answer(answer, s2.targetId)])
  }

  /**
   * `endCall`: stop the tracks of `localStream` and close `peerConnection`
   * when they exist, forget the peer, and always emit `end-call` to
   * `targetId`, which it leaves as it was.
   */
  function EndCallStep(s: Client): (r: Client)
    ensures r.peer.None? && r.targetId == s.targetId && r.stream == s.stream
    ensures r.sent == s.sent + [EndCall(s.targetId)]
    ensures s.peer.Some? ==> r.listening == s.listening - {s.peer.value}
    ensures s.peer.None? ==> r.listening == s.listening
  {
    var stops := if s.stream.Some? then [StopTracks(s.stream.value)] else [];
    var closes := if s.peer.Some? then [ClosePeer(s.peer.value)] else [];
    s.(rtc := s.rtc + stops + closes,
       listening := if s.peer.Some? then s.listening - {s.peer.value} else s.listening,
       peer := None,
       sent := s.sent + [EndCall(s.targetId)])
  }

  /**
   * The `onicecandidate` handler installed on `pc`: it fires only on a peer
   * that has it and is still open, and it emits only for a real candidate
   * while `targetId` is truthy.
   */
  function LocalCandidateStep(s: Client, pc: Peer, candidate: Option<Candidate>): (r: Client)
    ensures s.sent <= r.sent && r.targetId == s.targetId && r.peer == s.peer
    ensures |Emitted(s, r)| == 1 <==> pc in s.listening && candidate.Some? && Truthy(s.targetId)
    ensures |Emitted(s, r)| == 1 ==> Emitted(s, r) == [IceCandidate(candidate.value, s.targetId)]
    ensures |Emitted(s, r)| != 1 ==> r == s
  {
    if pc in s.listening && candidate.Some? && Truthy(s.targetId) then
      s.(sent := s.sent + [IceCandidate(candidate.value, s.targetId)])
    else
      s
  }

  /** The effect of one event on the driver. */
  function Step(s: Client, e: Event): (r: Client)
    ensures s.sent <= r.sent && |r.sent| <= |s.sent| + 1
    // Only `startCall` and the "offer" handler change `targetId`; nothing clears it.
    ensures r.targetId == match e
                          case MicClick(_, _) => Some(CalleeId)
                          case OfferIn(from, _, _, _) => from
                          case _ => s.targetId
    // Whatever is emitted, other than `join`, goes to the `targetId` of the new state.
    ensures forall m :: m in Emitted(s, r) && Addressed(m) ==> m.to == r.targetId
    // Only an `endCall` emits `end-call`, and it leaves no peer behind.
    ensures (e.EndClick? || e.EndCallIn?) <==> Emitted(s, r) == [EndCall(s.targetId)]
    ensures e.EndClick? || e.EndCallIn? ==> r.peer.None?
    ensures forall m :: m in Emitted(s, r) && m.EndCall? ==> e.EndClick? || e.EndCallIn?
    // A remote candidate or answer is handed to the peer, whether or not that fails, and changes no call state.
    ensures e.CandidateIn? || e.AnswerIn? ==>
              r.sent == s.sent && r.targetId == s.targetId && r.peer == s.peer && r.stream == s.stream
              && r.listening == s.listening
  {
    match e
    case Connect => s.(sent := s.sent + [Join(SelfId)])
    case OfferIn(from, offer, media, answer) => AnswerCallStep(s.(targetId := from), offer, media, answer)
    case AnswerIn(answer) =>
      if s.peer.None? then s else s.(rtc := s.rtc + [SetRemote(s.peer.value, answer)])
    case CandidateIn(candidate) =>
      if s.peer.None? then s else s.(rtc := s.rtc + [AddIce(s.peer.value, candidate)])
    case EndCallIn => EndCallStep(s)
    case MicClick(media, offer) => StartCallStep(s, media, offer)
    case EndClick => EndCallStep(s)
    case LocalCandidate(pc, candidate) => LocalCandidateStep(s, pc, candidate)
  }

  function Replay(s: Client, events: seq<Event>): Client
    decreases |events|
  {
    if events == [] then s else Replay(Step(s, events[0]), events[1..])
  }

  /** Every ICE candidate in the log went to a truthy target. */
  predicate CandidatesAddressed(sent: seq<Emission>)
  {
    forall i :: 0 <= i < |sent| && sent[i].IceCandidate? ==> Truthy(sent[i].to)
  }

  /** Every offer in the log went to `soldier1`. */
  predicate OffersToCallee(sent: seq<Emission>)
  {
    forall i :: 0 <= i < |sent| && sent[i].Offer? ==> sent[i].to == Some(CalleeId)
  }

  /** The handles in use have all been handed out. */
  predicate HandlesIssued(s: Client)
  {
    && (s.peer.Some? ==> s.peer.value.handle < s.next)
    && (s.stream.Some? ==> s.stream.value.handle < s.next)
    && (forall p :: p in s.listening ==> p.handle < s.next)
  }

  /** One event keeps the addressing rules of the log and the handle discipline. */
  lemma StepAddressing(s: Client, e: Event)
    requires CandidatesAddressed(s.sent) && OffersToCallee(s.sent) && HandlesIssued(s)
    ensures var r := Step(s, e); CandidatesAddressed(r.sent) && OffersToCallee(r.sent) && HandlesIssued(r)
  {
  }

  /** Over any run, no candidate is emitted without a target and every offer dials `soldier1`. */
  lemma {:induction false} ReplayAddressing(s: Client, events: seq<Event>)
    requires CandidatesAddressed(s.sent) && OffersToCallee(s.sent) && HandlesIssued(s)
    ensures var r := Replay(s, events);
            CandidatesAddressed(r.sent) && OffersToCallee(r.sent) && HandlesIssued(r) && s.sent <= r.sent
    decreases |events|
  {
    if events != [] {
      StepAddressing(s, events[0]);
      ReplayAddressing(Step(s, events[0]), events[1..]);
    }
  }

  /** On transport connect the driver announces itself as `commander`, and nothing else changes. */
  lemma ConnectJoinsAsCommander(s: Client)
    ensures Step(s, Connect) == s.(sent := s.sent + [Join("commander")])
  {
  }

  /** `endCall` is not idempotent: a second one emits `end-call` again, to the same target. */
  lemma EndCallTwiceEmitsTwice(s: Client)
    ensures var r := Step(Step(s, EndClick), EndClick);
            r.sent == s.sent + [EndCall(s.targetId), EndCall(s.targetId)] && r.peer.None? && r.targetId == s.targetId
  {
  }

  /** Calling and then receiving `end-call` echoes `end-call` back to `soldier1`. */
  lemma EndCallEchoesToCallee(s: Client, offer: Sdp)
    ensures var r := Replay(s, [MicClick(Works, offer), EndCallIn]);
            r.sent == s.sent + [Offer(offer, Some(CalleeId)), EndCall(Some(CalleeId))] && r.peer.None?
  {
    var s1 := Step(s, MicClick(Works, offer));
    assert s1.sent == s.sent + [Offer(offer, Some(CalleeId))];
    var s2 := Step(s1, EndCallIn);
    assert s2 == EndCallStep(s1);
    var events := [MicClick(Works, offer), EndCallIn];
    assert events[1..] == [EndCallIn];
    assert Replay(s1, [EndCallIn]) == Replay(s2, []);
  }

  class Phone {
    var targetId: Option<string>
    var peerConnection: Option<Peer>
    var localStream: Option<Stream>
    var listening: set<Peer>
    var sent: seq<Emission>
    var rtc: seq<RtcCall>
    var next: nat

    function State(): Client
      reads this
    {
      Client(targetId, peerConnection, localStream, listening, sent, rtc, next)
    }

    constructor ()
      ensures State() == Initial
    {
      targetId, peerConnection, localStream := None, None, None;
      listening, sent, rtc, next := {}, [], [], 0;
    }

    /** Allocate an unused handle. */
    method Fresh() returns (h: nat)
      modifies this
      ensures h == old(next) && next == h + 1
      ensures targetId == old(targetId) && peerConnection == old(peerConnection) && localStream == old(localStream)
      ensures listening == old(listening) && sent == old(sent) && rtc == old(rtc)
    {
      h := next;
      next := next + 1;
    }

    method CreatePeerConnection(media: Media) returns (micOpen: bool)
      modifies this
      ensures State() == CreatePeerStep(old(State()), media)
      ensures micOpen <==> media != MicDenied
    {
      var p := Fresh();
      var pc := Peer(p);
      peerConnection := Some(pc);
      rtc := rtc + [NewPeer(pc)];
      if media == MicDenied {
        return false;
      }
      var h := Fresh();
      localStream := Some(Stream(h));
      rtc := rtc + [OpenMic(pc, Stream(h))];
      listening := listening + {pc};
      micOpen := true;
    }

    method StartCall(media: Media, offer: Sdp)
      modifies this
      ensures State() == StartCallStep(old(State()), media, offer)
    {
      targetId := Some(CalleeId);
      var micOpen := CreatePeerConnection(media);
      if media != Works {
        return;
      }
      rtc := rtc + [SetLocal(peerConnection.value, offer)];
      sent := sent + [Offer(offer, targetId)];
    }

    method AnswerCall(offer: Sdp, media: Media, answer: Sdp)
      modifies this
      ensures State() == AnswerCallStep(old(State()), offer, media, answer)
    {
      var micOpen := CreatePeerConnection(media);
      if !micOpen {
        return;
      }
      var pc := peerConnection.value;
      rtc := rtc + [SetRemote(pc, offer)];
      if media == NegotiationFails {
        return;
      }
      rtc := rtc + [SetLocal(pc, answer)];
      sent := sent + [Answer(answer, targetId)];
    }

    method EndCall()
      modifies this
      ensures State() == EndCallStep(old(State()))
    {
      if localStream.Some? {
        rtc := rtc + [StopTracks(localStream.value)];
      }
      if peerConnection.Some? {
        rtc := rtc + [ClosePeer(peerConnection.value)];
        listening := listening - {peerConnection.value};
      }
      peerConnection := None;
      sent := sent + [Emission.EndCall(targetId)];
    }

    method OnConnect()
      modifies this
      ensures State() == Step(old(State()), Connect)
    {
      sent := sent + [Join(SelfId)];
    }

    method OnOffer(from: Option<string>, offer: Sdp, media: Media, answer: Sdp)
      modifies this
      ensures State() == Step(old(State()), OfferIn(from, offer, media, answer))
    {
      targetId := from;
      AnswerCall(offer, media, answer);
    }

    method OnAnswer(answer: Sdp)
      modifies this
      ensures State() == Step(old(State()), AnswerIn(answer))
    {
      if peerConnection.None? {
        return;  // TypeError in the async handler: the promise rejects, nothing else happens
      }
      rtc := rtc + [SetRemote(peerConnection.value, answer)];
    }

    method OnIceCandidate(candidate: Candidate)
      modifies this
      ensures State() == Step(old(State()), CandidateIn(candidate))
    {
      if peerConnection.Some? {
        rtc := rtc + [AddIce(peerConnection.value, candidate)];
      }
      // an error from addIceCandidate, or from a null peerConnection, is caught and logged
    }

    method OnLocalCandidate(pc: Peer, candidate: Option<Candidate>)
      modifies this
      ensures State() == LocalCandidateStep(old(State()), pc, candidate)
    {
      if pc in listening && candidate.Some? && targetId.Some? && targetId.value != "" {
        sent := sent + [IceCandidate(candidate.value, targetId)];
      }
    }

    method Dispatch(e: Event)
      modifies this
      ensures State() == Step(old(State()), e)
    {
      match e {
        case Connect => OnConnect();
        case OfferIn(from, offer, media, answer) => OnOffer(from, offer, media, answer);
        case AnswerIn(answer) => OnAnswer(answer);
        case CandidateIn(candidate) => OnIceCandidate(candidate);
        case EndCallIn => EndCall();
        case MicClick(media, offer) => StartCall(media, offer);
        case EndClick => EndCall();
        case LocalCandidate(pc, candidate) => OnLocalCandidate(pc, candidate);
      }
    }

    method Run(events: seq<Event>)
      modifies this
      ensures State() == Replay(old(State()), events)
    {
      var i := 0;
      while i < |events|
        invariant 0 <= i <= |events|
        invariant Replay(State(), events[i..]) == Replay(old(State()), events)
      {
        assert events[i..][1..] == events[i + 1..];
        Dispatch(events[i]);
        i := i + 1;
      }
    }
  }
}

/**
 * What both peers see of the transport: the objects that arrive over the
 * signaling connection, the text payloads that arrive on the data channel,
 * and the effects a peer has on its peer connection, recorded as a trace of
 * actions. The real-time media library itself is not modelled; each of its
 * calls appears here as one action.
 */
module Signaling {

  /** The `type` of a session description. */
  datatype SdpType = Offer | PrAnswer | Answer | Rollback

  datatype SessionDescription = SessionDescription(sdpType: SdpType, sdp: string)

  /** What `signaling.receive()` can hand back. */
  datatype SignalingObject =
    | Description(description: SessionDescription)
    | Candidate(candidate: string)
    | Bye
      /** anything else, such as the `None` of a closed connection */
    | Unrecognized

  /** A value passed to or received from a data channel: a `str`, or anything else. */
  datatype Message = Text(text: string) | NonText

  /**
   * One input to a peer's event loop: the next signaling object, or a payload
   * delivered to the data channel's message handler while the loop waits.
   */
  datatype Event = Signal(obj: SignalingObject) | ChannelMessage(message: Message)

  /** One effect on the peer connection or the signaling connection. */
  datatype Action =
    | CreateDataChannel
    | Connect
    | AddTrack
    | SetRemote(description: SessionDescription)
      /** create a local description of this type, apply it and send it */
    | SendLocal(sdpType: SdpType)
    | AddIceCandidate(candidate: string)

  /** The sending side of a data channel: the payloads sent on it, in order. */
  class DataChannel {
    var sent: seq<string>

    constructor ()
      ensures sent == []
    {
      sent := [];
    }

    method Send(message: string)
      modifies this
      ensures sent == old(sent) + [message]
    {
      sent := sent + [message];
    }
  }

  /** How many elements of `s` satisfy `p`. */
  function CountIf<T>(s: seq<T>, p: T -> bool): (n: nat)
    ensures n <= |s|
    decreases |s|
  {
    if s == [] then 0 else (if p(s[0]) then 1 else 0) + CountIf(s[1..], p)
  }

  lemma {:induction false} CountIfAppend<T>(a: seq<T>, b: seq<T>, p: T -> bool)
    ensures CountIf(a + b, p) == CountIf(a, p) + CountIf(b, p)
    decreases |a|
  {
    if a == [] {
      assert a + b == b;
    } else {
      assert (a + b)[1..] == a[1..] + b;
      CountIfAppend(a[1..], b, p);
    }
  }

  lemma AppendAssociates<T>(a: seq<T>, b: seq<T>, c: seq<T>)
    ensures (a + b) + c == a + (b + c)
  {
  }

  predicate IsBye(e: Event)
  {
    e.Signal? && e.obj.Bye?
  }

  /** The events a receive loop handles: those before the first BYE. */
  function BeforeBye(events: seq<Event>): (handled: seq<Event>)
    ensures handled <= events
    ensures forall i :: 0 <= i < |handled| ==> !IsBye(handled[i])
    ensures |handled| < |events| ==> IsBye(events[|handled|])
    decreases |events|
  {
    if events == [] || IsBye(events[0]) then []
    else [events[0]] + BeforeBye(events[1..])
  }

  predicate IsSignal(e: Event)
  {
    e.Signal?
  }

  predicate IsChannelMessage(e: Event)
  {
    e.ChannelMessage?
  }

  predicate IsDescription(e: Event)
  {
    e.Signal? && e.obj.Description?
  }

  predicate IsOffer(e: Event)
  {
    IsDescription(e) && e.obj.description.sdpType == Offer
  }

  /** A session description of any type other than offer. */
  predicate IsNonOffer(e: Event)
  {
    IsDescription(e) && e.obj.description.sdpType != Offer
  }

  predicate IsCandidate(e: Event)
  {
    e.Signal? && e.obj.Candidate?
  }

  predicate IsAnswerSent(a: Action)
  {
    a == SendLocal(Answer)
  }

  predicate IsOfferSent(a: Action)
  {
    a == SendLocal(Offer)
  }

  predicate IsSent(a: Action)
  {
    a.SendLocal?
  }

  predicate IsRemoteSet(a: Action)
  {
    a.SetRemote?
  }

  predicate IsCandidateAdded(a: Action)
  {
    a.AddIceCandidate?
  }
}

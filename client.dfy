/**
 * The answering peer: the signaling loop of `consume_signaling`, which
 * applies what the offering peer sends and answers its offers, and the
 * message handler of the data channel it is given, which answers every
 * ping with a pong.
 */
module Client {
  import opened Text
  import opened Signaling

  /** The client's `channel_send`: the message goes out as it is, unchecked. */
  method ChannelSend(channel: DataChannel, message: string)
    modifies channel
    ensures channel.sent == old(channel.sent) + [message]
  {
    channel.Send(message);
  }

  /** The reply `on_message` sends for a payload, if any. */
  function PingReply(message: Message): (reply: Option<string>)
    ensures reply.Some? ==> reply.value == "pong"
    ensures reply.Some? ==> message.Text? && |message.text| >= 4 && message.text[..4] == "ping"
  {
    if message.Text? && "ping" <= message.text then Some("pong") else None
  }

  /** Every string that starts with "ping" is answered. */
  lemma PingPrefixAnswered(rest: string)
    ensures PingReply(Text("ping" + rest)) == Some("pong")
  {
    assert "ping" <= "ping" + rest;
  }

  /** The reply is not itself a ping, so a peer like this one would not answer it. */
  lemma PongUnanswered()
    ensures PingReply(Text("pong")) == None
    ensures PingReply(NonText) == None
  {
    assert "pong"[1] != "ping"[1];
  }

  /**
   * `on_message` of the channel handed over by the "datachannel" event: a
   * `str` that starts with "ping" is answered with "pong" on the same
   * channel; anything else is only printed.
   */
  method OnMessage(channel: DataChannel, message: Message)
    modifies channel
    ensures channel.sent == old(channel.sent) + (if PingReply(message).Some? then ["pong"] else [])
  {
    if message.Text? && "ping" <= message.text {
      ChannelSend(channel, "pong");
    }
  }

  predicate IsPing(e: Event)
  {
    e.ChannelMessage? && PingReply(e.message).Some?
  }

  /**
   * What the client does with one signaling object other than BYE: apply a
   * description as the remote one and answer it if it is an offer; add a
   * candidate.
   */
  function Dispatch(obj: SignalingObject): (r: seq<Action>)
    ensures r == [] <==> !(obj.Description? || obj.Candidate?)
    ensures obj.Description? ==> r[0] == SetRemote(obj.description)
  {
    match obj
    case Description(d) =>
      [SetRemote(d)] + (if d.sdpType == Offer then [SendLocal(Answer)] else [])
    case Candidate(c) => [AddIceCandidate(c)]
    case _ => []
  }

  /**
   * What one signaling object other than BYE makes the client do: an offer
   * is applied and answered, any other description is only applied, a
   * candidate is added with nothing sent, anything else is ignored.
   */
  lemma DispatchEffects(obj: SignalingObject)
    ensures CountIf(Dispatch(obj), IsRemoteSet) == if obj.Description? then 1 else 0
    ensures CountIf(Dispatch(obj), IsAnswerSent) == if IsOffer(Signal(obj)) then 1 else 0
    ensures CountIf(Dispatch(obj), IsSent) == if IsOffer(Signal(obj)) then 1 else 0
    ensures CountIf(Dispatch(obj), IsCandidateAdded) == if obj.Candidate? then 1 else 0
    ensures |Dispatch(obj)| == CountIf(Dispatch(obj), IsRemoteSet) + CountIf(Dispatch(obj), IsSent)
      + CountIf(Dispatch(obj), IsCandidateAdded)
  {
    if IsOffer(Signal(obj)) {
      assert Dispatch(obj)[1..] == [Dispatch(obj)[1]];
    }
  }

  datatype AnswerRun = AnswerRun(trace: seq<Action>, replies: seq<string>, exited: bool)

  /**
   * `consume_signaling` over the events from some point on, together with
   * the replies the channel's message handler sends meanwhile; BYE ends it.
   */
  function AnswerLoop(events: seq<Event>): (r: AnswerRun)
    ensures |r.replies| <= |events|
    decreases |events|
  {
    if events == [] then AnswerRun([], [], false)
    else match events[0]
      case ChannelMessage(m) =>
        var rest := AnswerLoop(events[1..]);
        if PingReply(m).Some? then rest.(replies := [PingReply(m).value] + rest.replies) else rest
      case Signal(obj) =>
        if obj.Bye? then AnswerRun([], [], true)
        else
          var rest := AnswerLoop(events[1..]);
          rest.(trace := Dispatch(obj) + rest.trace)
  }

  /**
   * The client answers every offer it handles and sends nothing else: it
   * never offers, and it sends no answer to an answer.
   */
  lemma {:induction false} AnswerLoopAnswersOffers(events: seq<Event>)
    ensures var run := AnswerLoop(events);
      var handled := BeforeBye(events);
      && CountIf(run.trace, IsAnswerSent) == CountIf(handled, IsOffer)
      && CountIf(run.trace, IsSent) == CountIf(handled, IsOffer)
    decreases |events|
  {
    if events != [] && !IsBye(events[0]) {
      var e := events[0];
      AnswerLoopAnswersOffers(events[1..]);
      assert BeforeBye(events)[1..] == BeforeBye(events[1..]);
      if e.Signal? {
        var rest := AnswerLoop(events[1..]);
        DispatchEffects(e.obj);
        CountIfAppend(Dispatch(e.obj), rest.trace, IsAnswerSent);
        CountIfAppend(Dispatch(e.obj), rest.trace, IsSent);
      }
    }
  }

  /**
   * Every description handled is applied as the remote description, and
   * every candidate handled is added, once each.
   */
  lemma {:induction false} AnswerLoopAppliesSignals(events: seq<Event>)
    ensures var run := AnswerLoop(events);
      var handled := BeforeBye(events);
      && CountIf(run.trace, IsRemoteSet) == CountIf(handled, IsDescription)
      && CountIf(run.trace, IsCandidateAdded) == CountIf(handled, IsCandidate)
    decreases |events|
  {
    if events != [] && !IsBye(events[0]) {
      var e := events[0];
      AnswerLoopAppliesSignals(events[1..]);
      assert BeforeBye(events)[1..] == BeforeBye(events[1..]);
      if e.Signal? {
        var rest := AnswerLoop(events[1..]);
        DispatchEffects(e.obj);
        CountIfAppend(Dispatch(e.obj), rest.trace, IsRemoteSet);
        CountIfAppend(Dispatch(e.obj), rest.trace, IsCandidateAdded);
      }
    }
  }

  /**
   * One pong per ping handled before BYE and nothing else on the channel;
   * the loop reports an exit exactly when a BYE arrives.
   */
  lemma {:induction false} AnswerLoopPongsPings(events: seq<Event>)
    ensures var run := AnswerLoop(events);
      var handled := BeforeBye(events);
      && |run.replies| == CountIf(handled, IsPing)
      && (forall i :: 0 <= i < |run.replies| ==> run.replies[i] == "pong")
      && run.exited == (|handled| < |events|)
    decreases |events|
  {
    if events != [] && !IsBye(events[0]) {
      AnswerLoopPongsPings(events[1..]);
      assert BeforeBye(events)[1..] == BeforeBye(events[1..]);
    }
  }

  /** Nothing after the first BYE is handled. */
  lemma {:induction false} AnswerLoopStopsAtBye(handled: seq<Event>, later: seq<Event>)
    requires forall i :: 0 <= i < |handled| ==> !IsBye(handled[i])
    ensures AnswerLoop(handled + [Signal(Bye)] + later) == AnswerLoop(handled + [Signal(Bye)])
    ensures AnswerLoop(handled + [Signal(Bye)]).exited
    decreases |handled|
  {
    if handled == [] {
      assert ([] + [Signal(Bye)] + later)[0] == Signal(Bye);
      assert ([] + [Signal(Bye)])[0] == Signal(Bye);
    } else {
      AnswerLoopStopsAtBye(handled[1..], later);
      assert (handled + [Signal(Bye)] + later)[1..] == handled[1..] + [Signal(Bye)] + later;
      assert (handled + [Signal(Bye)])[1..] == handled[1..] + [Signal(Bye)];
    }
  }

  lemma AnswerLoopMessageStep(events: seq<Event>)
    requires events != [] && events[0].ChannelMessage?
    ensures var rest := AnswerLoop(events[1..]);
      var reply := PingReply(events[0].message);
      AnswerLoop(events) == rest.(replies := (if reply.Some? then [reply.value] else []) + rest.replies)
  {
  }

  lemma AnswerLoopSignalStep(events: seq<Event>)
    requires events != [] && events[0].Signal? && !events[0].obj.Bye?
    ensures var rest := AnswerLoop(events[1..]);
      AnswerLoop(events) == rest.(trace := Dispatch(events[0].obj) + rest.trace)
  {
  }

  /**
   * `consume_signaling`, with the data channel's handler answering the
   * channel messages that arrive while it waits. The loop ends at BYE, or
   * when no event is left (the real loop would wait forever).
   */
  method ConsumeSignaling(events: seq<Event>, channel: DataChannel) returns (trace: seq<Action>, exited: bool)
    modifies channel
    ensures trace == AnswerLoop(events).trace
    ensures channel.sent == old(channel.sent) + AnswerLoop(events).replies
    ensures exited == AnswerLoop(events).exited
  {
    ghost var whole := AnswerLoop(events);
    trace := [];
    exited := false;
    var i := 0;
    assert events[0..] == events;
    while i < |events| && !exited
      invariant 0 <= i <= |events|
      invariant exited ==> trace == whole.trace && channel.sent == old(channel.sent) + whole.replies && whole.exited
      invariant !exited ==>
        var rest := AnswerLoop(events[i..]);
        && whole.trace == trace + rest.trace
        && old(channel.sent) + whole.replies == channel.sent + rest.replies
        && whole.exited == rest.exited
      decreases |events| - i
    {
      assert events[i..][1..] == events[i + 1..];
      match events[i] {
        case ChannelMessage(m) =>
          AnswerLoopMessageStep(events[i..]);
          ghost var sentBefore := channel.sent;
          OnMessage(channel, m);
          AppendAssociates(sentBefore, if PingReply(m).Some? then ["pong"] else [], AnswerLoop(events[i + 1..]).replies);
        case Signal(obj) =>
          ghost var done := trace;
          match obj {
            case Description(d) =>
              trace := trace + [SetRemote(d)];
              if d.sdpType == Offer {
                trace := trace + [SendLocal(Answer)];
              }
            case Candidate(c) =>
              trace := trace + [AddIceCandidate(c)];
            case Bye =>
              exited := true;
            case Unrecognized =>
          }
          if !exited {
            AnswerLoopSignalStep(events[i..]);
            assert trace == done + Dispatch(obj);
            AppendAssociates(done, Dispatch(obj), AnswerLoop(events[i + 1..]).trace);
          }
      }
      i := i + 1;
    }
  }

  /**
   * `run_answer`: connect, then consume signaling while the channel the
   * offering peer opened delivers its messages. `sent` is what the client
   * sent on that channel.
   */
  method RunAnswer(events: seq<Event>) returns (trace: seq<Action>, sent: seq<string>, exited: bool)
    ensures trace == [Connect] + AnswerLoop(events).trace
    ensures sent == AnswerLoop(events).replies
    ensures exited == AnswerLoop(events).exited
  {
    trace := [Connect];
    var channel := new DataChannel();
    var loopTrace;
    loopTrace, exited := ConsumeSignaling(events, channel);
    trace := trace + loopTrace;
    sent := channel.sent;
  }
}

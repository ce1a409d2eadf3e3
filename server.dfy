/**
 * The offering peer: the closed-form ground truth of the animation, the
 * handler for messages arriving on the "chat" data channel, the guarded
 * `channel_send`, and the signaling loop of `run_offer`.
 */
module Server {
  import opened Text
  import opened Signaling
  import opened Animation

  /**
   * `calc_coords(frame_count)`: the map coordinate of the circle at a frame
   * count, in closed form. The count is used as given, not reduced modulo
   * the period.
   */
  function CalcCoords(frameCount: int): (xy: (int, int))
    ensures xy.0 == xy.1
    ensures 0 <= frameCount < Period ==> PathCoord(0) <= xy.0 <= PathCoord(Leg - 1)
    ensures 0 <= frameCount < Period ==> FitsFrame(xy.0, xy.1)
  {
    var k := if frameCount < Leg then frameCount else Period - 1 - frameCount;
    (PathCoord(k), PathCoord(k))
  }

  /** The path is a palindrome: count k and count 59 - k give the same point. */
  lemma CalcCoordsMirror(k: int)
    requires 0 <= k < Period
    ensures CalcCoords(k) == CalcCoords(Period - 1 - k)
  {
  }

  /**
   * The motion: 10 pixels per frame down the diagonal until count 29, a
   * repeated position at 29 and 30, 10 pixels per frame back up, and count 59
   * ending where count 0 starts.
   */
  lemma CalcCoordsMotion(k: int)
    requires 0 <= k < Period
    ensures k < Leg - 1 ==> CalcCoords(k + 1).0 == CalcCoords(k).0 + 10
    ensures k == Leg - 1 ==> CalcCoords(k + 1) == CalcCoords(k)
    ensures Leg <= k < Period - 1 ==> CalcCoords(k + 1).0 == CalcCoords(k).0 - 10
    ensures k == Period - 1 ==> CalcCoords(k) == CalcCoords(0)
  {
  }

  /**
   * Past the first period the closed form leaves the path: from count 60 on
   * it lies above and left of every frame's position, so it differs from the
   * position of count mod 60.
   */
  lemma CalcCoordsPastPeriod(count: int)
    requires count >= Period
    ensures CalcCoords(count).0 < PathCoord(0) <= CalcCoords(count % Period).0
    ensures forall i :: 0 <= i < Period ==> CalcCoords(count) != CalcCoords(i)
  {
  }

  /**
   * The frame table and the closed form agree: entry i has the mask's
   * top-left corner at calc_coords(i) minus the radius on both axes.
   */
  lemma {:induction false} TableMatchesCalcCoords(i: int)
    requires 0 <= i < Period
    ensures var (x, y) := CalcCoords(i);
      FrameTable()[i] == Paste(Background(), CreateCircle(Radius, White), y - Radius, x - Radius)
  {
    FrameTableAt(i);
  }

  /**
   * Pixel by pixel, frame i is white exactly on the disk of radius 50 around
   * (calc_coords(i) + 1), less its bottom-most row and right-most column
   * (those of row or column calc_coords(i) + 51), and black elsewhere.
   */
  lemma {:induction false} FramePixel(i: int, row: int, col: int)
    requires 0 <= i < Period && 0 <= row < Height && 0 <= col < Width
    ensures var (x, y) := CalcCoords(i);
      FrameTable()[i][row][col] ==
        if row <= y + Radius && col <= x + Radius
           && Square(row - y - 1) + Square(col - x - 1) <= Square(Radius)
        then White else Black
  {
    TableMatchesCalcCoords(i);
    CircleFramePixel(CalcCoords(i).0, CalcCoords(i).1, row, col);
  }

  /** What the data channel's message handler makes of one payload. */
  datatype Feedback =
    | Ignored
      /** a report (x, y), compared with the ground truth (truthX, truthY) */
    | Compared(x: int, y: int, truthX: int, truthY: int, squaredError: int)
      /** `int()` raised on one of the first two fields */
    | ValueError

  /**
   * The comparison `on_message` makes once it has split a report and applied
   * `int()` to the first two fields: `x` and `y` are those results, `None`
   * where `int()` raised. A report is compared with calc_coords(count) by its
   * squared distance.
   */
  function Compare(x: Option<int>, y: Option<int>, count: int): (r: Feedback)
    ensures !r.Ignored?
    ensures r.ValueError? <==> x.None? || y.None?
    ensures r.Compared? ==> Some(r.x) == x && Some(r.y) == y
    ensures r.Compared? ==> (r.truthX, r.truthY) == CalcCoords(count)
    ensures r.Compared? ==> r.squaredError >= 0
    ensures r.Compared? ==> (r.squaredError == 0 <==> r.x == r.truthX && r.y == r.truthY)
  {
    if x.None? || y.None? then ValueError
    else
      var (compX, compY) := CalcCoords(count);
      Compared(x.value, y.value, compX, compY, Square(x.value - compX) + Square(y.value - compY))
  }

  /**
   * `on_message` of the "chat" channel, with `count` the value the loop last
   * read from the reference track. The error it prints is the square root of
   * `squaredError`.
   */
  function OnMessage(message: Message, count: int): (r: Feedback)
    ensures r.Ignored? <==> !message.Text? || ',' !in message.text
    ensures r.Compared? ==> (r.truthX, r.truthY) == CalcCoords(count)
    ensures r.Compared? ==> r.squaredError >= 0
    ensures r.Compared? ==> (r.squaredError == 0 <==> r.x == r.truthX && r.y == r.truthY)
  {
    if !message.Text? then Ignored
    else if message.text == "pong" then Ignored
    else if ',' in message.text then
      var coords := Split(message.text, ',');
      Compare(ParseInt(coords[0]), ParseInt(coords[1]), count)
    else Ignored
  }

  /** A string with a comma in it is compared on its first two fields. */
  lemma OnMessageSplits(s: string, count: int)
    requires ',' in s
    ensures |Split(s, ',')| >= 2
    ensures OnMessage(Text(s), count) == Compare(ParseInt(Split(s, ',')[0]), ParseInt(Split(s, ',')[1]), count)
  {
    assert s != "pong" by {
      assert ',' !in "pong";
    }
  }

  /**
   * Only the first two comma-separated fields matter: the handler raises
   * exactly when one of them is not an integer, and otherwise compares those
   * two integers; any further fields are ignored.
   */
  lemma {:induction false} OnMessageFirstTwoFields(a: string, b: string, rest: seq<string>, count: int)
    requires ',' !in a && ',' !in b
    requires forall i :: 0 <= i < |rest| ==> ',' !in rest[i]
    ensures var r := OnMessage(Text(Join([a, b] + rest, ',')), count);
      && (r.ValueError? <==> ParseInt(a).None? || ParseInt(b).None?)
      && (r.Compared? ==> Some(r.x) == ParseInt(a) && Some(r.y) == ParseInt(b))
      && r == OnMessage(Text(a + "," + b), count)
  {
    var fields := [a, b] + rest;
    var s := Join(fields, ',');
    SplitJoin(fields, ',');
    assert Split(s, ',')[0] == a && Split(s, ',')[1] == b;
    OnMessageSplits(s, count);
    var t := a + "," + b;
    assert Join([a, b], ',') == t by {
      assert Join([a, b][1..], ',') == b;
    }
    SplitJoin([a, b], ',');
    assert t[|a|] == ',';
    OnMessageSplits(t, count);
  }

  /**
   * Round trip with the report format `str(x) + ',' + str(y)`: the handler
   * recovers (x, y) and compares it with calc_coords(count).
   */
  lemma ReportRoundTrip(x: int, y: int, count: int)
    ensures var (gx, gy) := CalcCoords(count);
      var r := OnMessage(Text(IntToString(x) + "," + IntToString(y)), count);
      && r.Compared?
      && r.x == x && r.y == y
      && r.truthX == gx && r.truthY == gy
      && r.squaredError >= 0
      && (r.squaredError == 0 <==> x == gx && y == gy)
  {
    var sx, sy := IntToString(x), IntToString(y);
    NoCommaInIntToString(x);
    NoCommaInIntToString(y);
    var t := sx + "," + sy;
    assert Join([sx, sy], ',') == t by {
      assert Join([sx, sy][1..], ',') == sy;
    }
    SplitJoin([sx, sy], ',');
    assert t[|sx|] == ',';
    OnMessageSplits(t, count);
    assert Split(t, ',') == [sx, sy];
    ParseIntOfIntToString(x);
    ParseIntOfIntToString(y);
  }

  lemma NoCommaInIntToString(n: int)
    ensures ',' !in IntToString(n)
  {
    var digits := NatToString(if n < 0 then -n else n);
    assert forall i :: 0 <= i < |digits| ==> digits[i] != ',';
    if n < 0 {
      assert IntToString(n) == "-" + digits;
    }
  }

  /** What the loop does with one signaling object other than BYE. */
  function Dispatch(obj: SignalingObject): (r: seq<Action>)
    ensures r == [] <==> !(obj.Description? || obj.Candidate?)
    ensures obj.Description? ==> r[0] == SetRemote(obj.description)
  {
    match obj
    case Description(d) =>
      [SetRemote(d), SendLocal(if d.sdpType == Offer then Answer else Offer)]
    case Candidate(c) => [AddIceCandidate(c)]
    case _ => []
  }

  /**
   * What one signaling object other than BYE makes the server do: an offer
   * is applied and answered, any other description is applied and answered
   * with a new offer, a candidate is added with nothing sent, anything else
   * is ignored.
   */
  lemma DispatchEffects(obj: SignalingObject)
    ensures CountIf(Dispatch(obj), IsRemoteSet) == if obj.Description? then 1 else 0
    ensures CountIf(Dispatch(obj), IsAnswerSent) == if IsOffer(Signal(obj)) then 1 else 0
    ensures CountIf(Dispatch(obj), IsOfferSent) == if IsNonOffer(Signal(obj)) then 1 else 0
    ensures CountIf(Dispatch(obj), IsSent) == if obj.Description? then 1 else 0
    ensures CountIf(Dispatch(obj), IsCandidateAdded) == if obj.Candidate? then 1 else 0
    ensures |Dispatch(obj)| == CountIf(Dispatch(obj), IsRemoteSet) + CountIf(Dispatch(obj), IsSent)
      + CountIf(Dispatch(obj), IsCandidateAdded)
  {
    if obj.Description? {
      assert Dispatch(obj)[1..] == [Dispatch(obj)[1]];
    }
  }

  /** The trace `run_offer` leaves before its loop: channel, connection, track, offer. */
  function OfferSetup(): seq<Action>
  {
    [CreateDataChannel, Connect, AddTrack, SendLocal(Offer)]
  }

  /** One call of the data channel's message handler: the payload and the count it sees. */
  datatype HandlerCall = HandlerCall(message: Message, count: int)

  /**
   * What the loop of `run_offer` does over some events: the actions on the
   * peer connection, the handler calls, whether BYE ended it, and the
   * reference track's counter when it stops.
   */
  datatype OfferRun = OfferRun(trace: seq<Action>, calls: seq<HandlerCall>, exited: bool, ticks: int)

  /**
   * The loop of `run_offer` over the events from some point on, where `count`
   * is the reference track's counter while the loop waits for the next
   * signaling object. Every signaling object handled is followed by one more
   * `recv`, so the count rises by one per object; each channel message is
   * handed to `on_message` with the count current when it arrives; BYE ends
   * the loop.
   */
  function OfferLoop(events: seq<Event>, count: int): (r: OfferRun)
    ensures |r.calls| <= |events| && r.ticks >= count
    decreases |events|
  {
    if events == [] then OfferRun([], [], false, count)
    else match events[0]
      case ChannelMessage(m) =>
        var rest := OfferLoop(events[1..], count);
        rest.(calls := [HandlerCall(m, count)] + rest.calls)
      case Signal(obj) =>
        if obj.Bye? then OfferRun([], [], true, count)
        else
          var rest := OfferLoop(events[1..], count + 1);
          rest.(trace := Dispatch(obj) + rest.trace)
  }

  /** The feedback `on_message` gives for each call, in order. */
  function Judge(calls: seq<HandlerCall>): seq<Feedback>
  {
    seq(|calls|, j requires 0 <= j < |calls| => OnMessage(calls[j].message, calls[j].count))
  }

  /**
   * The loop answers every offer handled and re-offers on every other
   * description handled, counting over the events before the first BYE.
   */
  lemma {:induction false} OfferLoopAnswersOffers(events: seq<Event>, count: int)
    ensures var run := OfferLoop(events, count);
      var handled := BeforeBye(events);
      && CountIf(run.trace, IsAnswerSent) == CountIf(handled, IsOffer)
      && CountIf(run.trace, IsOfferSent) == CountIf(handled, IsNonOffer)
    decreases |events|
  {
    if events != [] && !IsBye(events[0]) {
      var e := events[0];
      var next := if e.Signal? then count + 1 else count;
      OfferLoopAnswersOffers(events[1..], next);
      assert BeforeBye(events)[1..] == BeforeBye(events[1..]);
      if e.Signal? {
        var rest := OfferLoop(events[1..], next);
        DispatchEffects(e.obj);
        CountIfAppend(Dispatch(e.obj), rest.trace, IsAnswerSent);
        CountIfAppend(Dispatch(e.obj), rest.trace, IsOfferSent);
      }
    }
  }

  /**
   * Every description handled is applied as the remote description, and
   * every candidate handled is added, once each.
   */
  lemma {:induction false} OfferLoopAppliesSignals(events: seq<Event>, count: int)
    ensures var run := OfferLoop(events, count);
      var handled := BeforeBye(events);
      && CountIf(run.trace, IsRemoteSet) == CountIf(handled, IsDescription)
      && CountIf(run.trace, IsCandidateAdded) == CountIf(handled, IsCandidate)
    decreases |events|
  {
    if events != [] && !IsBye(events[0]) {
      var e := events[0];
      var next := if e.Signal? then count + 1 else count;
      OfferLoopAppliesSignals(events[1..], next);
      assert BeforeBye(events)[1..] == BeforeBye(events[1..]);
      if e.Signal? {
        var rest := OfferLoop(events[1..], next);
        DispatchEffects(e.obj);
        CountIfAppend(Dispatch(e.obj), rest.trace, IsRemoteSet);
        CountIfAppend(Dispatch(e.obj), rest.trace, IsCandidateAdded);
      }
    }
  }

  /**
   * Every channel message before the first BYE is handed to the handler
   * exactly once, and the loop reports an exit exactly when a BYE arrives.
   */
  lemma {:induction false} OfferLoopHandlesMessages(events: seq<Event>, count: int)
    ensures var run := OfferLoop(events, count);
      var handled := BeforeBye(events);
      && |run.calls| == CountIf(handled, IsChannelMessage)
      && run.exited == (|handled| < |events|)
    decreases |events|
  {
    if events != [] && !IsBye(events[0]) {
      var next := if events[0].Signal? then count + 1 else count;
      OfferLoopHandlesMessages(events[1..], next);
      assert BeforeBye(events)[1..] == BeforeBye(events[1..]);
    }
  }

  /** Nothing after the first BYE is handled. */
  lemma {:induction false} OfferLoopStopsAtBye(handled: seq<Event>, later: seq<Event>, count: int)
    requires forall i :: 0 <= i < |handled| ==> !IsBye(handled[i])
    ensures OfferLoop(handled + [Signal(Bye)] + later, count) == OfferLoop(handled + [Signal(Bye)], count)
    ensures OfferLoop(handled + [Signal(Bye)], count).exited
    decreases |handled|
  {
    if handled == [] {
      assert ([] + [Signal(Bye)] + later)[0] == Signal(Bye);
      assert ([] + [Signal(Bye)])[0] == Signal(Bye);
    } else {
      var next := if handled[0].Signal? then count + 1 else count;
      OfferLoopStopsAtBye(handled[1..], later, next);
      assert (handled + [Signal(Bye)] + later)[1..] == handled[1..] + [Signal(Bye)] + later;
      assert (handled + [Signal(Bye)])[1..] == handled[1..] + [Signal(Bye)];
    }
  }

  /**
   * A channel message is judged against the count after one more `recv` per
   * signaling object handled before it: the message preceded by n channel
   * messages and s signaling objects is the (n + 1)-th handler call, and it
   * sees count + s.
   */
  lemma {:induction false} HandlerSeesCurrentCount(before: seq<Event>, m: Message, after: seq<Event>, count: int)
    requires forall i :: 0 <= i < |before| ==> !IsBye(before[i])
    ensures var run := OfferLoop(before + [ChannelMessage(m)] + after, count);
      var n := CountIf(before, IsChannelMessage);
      n < |run.calls| && run.calls[n] == HandlerCall(m, count + CountIf(before, IsSignal))
    decreases |before|
  {
    var events := before + [ChannelMessage(m)] + after;
    if before == [] {
      assert events[0] == ChannelMessage(m);
    } else {
      var e := before[0];
      var next := if e.Signal? then count + 1 else count;
      HandlerSeesCurrentCount(before[1..], m, after, next);
      assert events[0] == e;
      assert events[1..] == before[1..] + [ChannelMessage(m)] + after;
    }
  }

  /** Unfolding the loop over a first event that is a channel message. */
  lemma OfferLoopMessageStep(events: seq<Event>, count: int)
    requires events != [] && events[0].ChannelMessage?
    ensures var rest := OfferLoop(events[1..], count);
      OfferLoop(events, count) == rest.(calls := [HandlerCall(events[0].message, count)] + rest.calls)
  {
  }

  /** Unfolding the loop over a first event that is a signaling object other than BYE. */
  lemma OfferLoopSignalStep(events: seq<Event>, count: int)
    requires events != [] && events[0].Signal? && !events[0].obj.Bye?
    ensures var rest := OfferLoop(events[1..], count + 1);
      OfferLoop(events, count) == rest.(trace := Dispatch(events[0].obj) + rest.trace)
  {
  }

  /** Counting the signaling objects handled, one event at a time. */
  lemma SignalsHandledStep(events: seq<Event>)
    requires events != [] && !IsBye(events[0])
    ensures CountIf(BeforeBye(events), IsSignal)
      == (if events[0].Signal? then 1 else 0) + CountIf(BeforeBye(events[1..]), IsSignal)
  {
    assert BeforeBye(events)[1..] == BeforeBye(events[1..]);
  }

  /**
   * The counter rises by one per signaling object handled before BYE: one
   * `recv` before the first object and one after each object other than BYE.
   */
  lemma {:induction false} OfferLoopTicks(events: seq<Event>, count: int)
    ensures OfferLoop(events, count).ticks == count + CountIf(BeforeBye(events), IsSignal)
    decreases |events|
  {
    if events != [] && !IsBye(events[0]) {
      SignalsHandledStep(events);
      OfferLoopTicks(events[1..], if events[0].Signal? then count + 1 else count);
    }
  }

  lemma JudgeAppend(calls: seq<HandlerCall>, call: HandlerCall)
    ensures Judge(calls + [call]) == Judge(calls) + [OnMessage(call.message, call.count)]
  {
    assert |Judge(calls + [call])| == |Judge(calls) + [OnMessage(call.message, call.count)]|;
  }

  /**
   * `run_offer`: create the "chat" channel and the reference track, connect,
   * add the video track, send the offer, then keep the connection open.
   */
  method RunOffer(events: seq<Event>) returns (trace: seq<Action>, feedback: seq<Feedback>, exited: bool)
    ensures trace == OfferSetup() + OfferLoop(events, 1).trace
    ensures feedback == Judge(OfferLoop(events, 1).calls)
    ensures exited == OfferLoop(events, 1).exited
  {
    trace := [CreateDataChannel];
    var reference := new CircleVideoStreamTrack();
    trace := trace + [Connect, AddTrack, SendLocal(Offer)];
    trace, feedback, exited := KeepConnectionOpen(events, reference, trace);
  }

  /**
   * The loop of `run_offer`. Each pass advances the reference track once,
   * reads its counter into `count` and waits for one signaling object;
   * channel messages that arrive during the wait are handled with that count.
   * Here the events are taken one at a time, the `recv` of the next pass
   * being made as soon as a signaling object other than BYE is handled. The
   * loop ends at BYE, or when no event is left (the real loop would wait
   * forever).
   */
  method KeepConnectionOpen(events: seq<Event>, reference: CircleVideoStreamTrack, setup: seq<Action>)
    returns (trace: seq<Action>, feedback: seq<Feedback>, exited: bool)
    requires reference.Valid() && reference.counter == 0
    modifies reference
    ensures reference.Valid() && reference.frames == old(reference.frames)
    ensures reference.counter == OfferLoop(events, 1).ticks == 1 + CountIf(BeforeBye(events), IsSignal)
    ensures trace == setup + OfferLoop(events, 1).trace
    ensures feedback == Judge(OfferLoop(events, 1).calls)
    ensures exited == OfferLoop(events, 1).exited
  {
    ghost var whole := OfferLoop(events, 1);
    ghost var rest := whole;
    trace := setup;
    feedback := [];
    ghost var calls: seq<HandlerCall> := [];
    exited := false;
    var i := 0;
    assert events[0..] == events;
    var _ := reference.Recv();
    var count := reference.counter;
    while i < |events| && !exited
      invariant 0 <= i <= |events|
      invariant reference.Valid() && reference.counter == count
      invariant reference.frames == old(reference.frames)
      invariant feedback == Judge(calls)
      invariant rest == if exited then OfferRun([], [], true, count) else OfferLoop(events[i..], count)
      invariant setup + whole.trace == trace + rest.trace
      invariant whole.calls == calls + rest.calls
      invariant whole.exited == rest.exited && whole.ticks == rest.ticks
      decreases |events| - i
    {
      assert events[i..][1..] == events[i + 1..];
      match events[i] {
        case ChannelMessage(m) =>
          OfferLoopMessageStep(events[i..], count);
          var call := HandlerCall(m, count);
          feedback := feedback + [OnMessage(call.message, call.count)];
          JudgeAppend(calls, call);
          rest := OfferLoop(events[i + 1..], count);
          AppendAssociates(calls, [call], rest.calls);
          calls := calls + [call];
        case Signal(obj) =>
          if obj.Bye? {
            exited := true;
            rest := OfferRun([], [], true, count);
          } else {
            OfferLoopSignalStep(events[i..], count);
            rest := OfferLoop(events[i + 1..], count + 1);
            AppendAssociates(trace, Dispatch(obj), rest.trace);
            trace := trace + Dispatch(obj);
            var _ := reference.Recv();
            count := reference.counter;
          }
      }
      i := i + 1;
    }
    assert whole.ticks == 1 + CountIf(BeforeBye(events), IsSignal) by {
      OfferLoopTicks(events, 1);
    }
  }

  /** The `channel` argument of `channel_send`: a data channel, or any other object. */
  datatype ChannelArg = Channel(channel: DataChannel) | NotAChannel

  datatype SendOutcome = Sent | AssertionFailure

  /**
   * The server's `channel_send`: asserts that the message is a `str` and the
   * channel a data channel, then sends the message as it is.
   */
  method ChannelSend(target: ChannelArg, message: Message) returns (outcome: SendOutcome)
    modifies if target.Channel? then {target.channel} else {}
    ensures outcome == Sent <==> message.Text? && target.Channel?
    ensures target.Channel? ==>
      target.channel.sent == old(target.channel.sent) + (if outcome == Sent then [message.text] else [])
  {
    if !message.Text? {
      return AssertionFailure;
    }
    if !target.Channel? {
      return AssertionFailure;
    }
    target.channel.Send(message.text);
    outcome := Sent;
  }

  /**
   * A client of `channel_send`: a string sent to something that is not a
   * channel, and a non-string sent to a channel, both fail the assertion, and
   * nothing reaches the channel.
   */
  method ChannelSendRejectsBadArguments() returns (badChannel: SendOutcome, badMessage: SendOutcome, sent: seq<string>)
    ensures badChannel == AssertionFailure && badMessage == AssertionFailure && sent == []
  {
    var channel := new DataChannel();
    badChannel := ChannelSend(NotAChannel, Text("abc"));
    badMessage := ChannelSend(Channel(channel), NonText);
    sent := channel.sent;
  }
}

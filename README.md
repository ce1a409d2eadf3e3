# Moving-circle tracking over WebRTC: a Dafny model

The system is a pair of WebRTC peers.

The **server** (`server/server.py`) is the offering peer:
- it opens a "chat" data channel and streams a synthetic video;
- the video is a white circle of radius 50 that moves down the diagonal of a black 640x480 frame, 10 pixels per frame, for 30 frames, then back up for 30 frames, looping every 60 frames;
- a reference copy of the animation advances once per pass of the signaling loop;
- a closed form, `calc_coords`, gives the circle's position for a frame count;
- coordinate reports `"x,y"` that arrive on the channel are compared with that ground truth.

The **client** (`client.py`) is the answering peer:
- it applies the descriptions and candidates it is sent;
- it answers offers;
- it replies `"pong"` to every channel message that starts with `"ping"`.

The model has five modules:

- `Text` (`text.dfy`): the Python string operations the handlers rely on. These are `str.split` with a one-character separator, `int()` on a string, `str()` on an integer, and the white space `int()` skips at both ends of its argument. That is the white space `str.isspace` accepts, except the ASCII separators U+001C to U+001F, which CPython's `int()` does not skip.
- `Signaling` (`signaling.dfy`): what a peer sees of its transport.
  - The objects the signaling connection delivers: a session description, an ICE candidate, BYE, or anything else.
  - The payloads the data channel delivers.
  - The effects a peer has on its peer connection, recorded as a trace of actions.
  - A `DataChannel` class that records what is sent on it.
- `Animation` (`animation.dfy`): `CircleVideoStreamTrack` as a class.
  - Its fields are the tick `counter` and the `frames` list.
  - The frames are built by the two loops of `__init__`.
  - `recv` hands out one frame and advances the tick.
  - The mask comes from `_create_circle`.
  - Frames are symbolic 480x640 rasters of blue-green-red pixels.
- `Server` (`server.dfy`): `calc_coords`, the channel's `on_message`, the `run_offer` setup and loop, and `channel_send` with its two assertions.
- `Client` (`client.dfy`): `channel_send`, the channel's `on_message`, the `consume_signaling` loop, and `run_answer`.

How the loops are modelled:
- A peer's inputs are one sequence of events. An event is either the next signaling object or a payload delivered to the channel's message handler while the loop waits.
- Each loop is a method over that sequence. Its results are tied to a recursive function (`OfferLoop`, `AnswerLoop`), and the properties are proved about that function.
- On the server, a channel payload is handled with the `count` the loop last read from the reference track. In the model, that is the value read after the most recent `recv`: one more than the number of signaling objects handled before the payload.

Where the code departs from its own docstrings, or from what a reader of them would expect, the model follows the code:

- The track's docstring describes an animation of 60 frames (server/server.py:20-25), and the docstring of `calc_coords` calls it a closed form for "where every point is in the video" (server/server.py:123-128). Yet `on_message` passes `count`, which is `reference.counter` after the increment, to `calc_coords` unreduced (server/server.py:173, 190-192), and `calc_coords` uses it as is (server/server.py:129-137). From count 60 on, the closed form leaves the path: `Server.CalcCoordsPastPeriod` shows it differs from every frame's position.
- The docstring of `on_message` names two kinds of feedback, `"pong"` and coordinates (server/server.py:160-165), and says nothing of malformed ones. In the code, `int()` on a non-integer field raises `ValueError` out of the handler (server/server.py:171-172). The model records the failure as `ValueError`.
- The client never reports coordinates. It replies `"pong"` to strings that start with `"ping"` and to nothing else (client.py:52-54).
- The docstring of `recv` says it advances the frame state (server/server.py:64-66). The state it advances is an unbounded counter, reduced modulo 60 only when it indexes the frame list (server/server.py:69-72).
- The docstring of `_create_circle` gives the circle a diameter of 2*radius + 1 (server/server.py:76-79). That is the side of the mask, not of the disk. The disk is centred on mask cell (51, 51), not (50, 50). It is drawn over mask rows and columns 1 to 100, so row 0 and column 0 of the 101x101 mask stay clear, and the lit disk is one cell narrower than the mask (`Animation.CircleMaskCells`, `Animation.CircleMaskExtent`).
- The loop answers every description that is not an offer, an answer included, with a new offer (server/server.py:202-204). The model keeps that re-offer (`Server.DispatchEffects`).

## Model

| member | source | states |
|---|---|---|
| Animation.OgridDisk | server/server.py:82-83 | the boolean index over `np.ogrid[-r:r, -r:r]` is 2r x 2r; its entries are the disk test, and `Animation.CircleMaskCells` states what they light |
| Animation.AssignMasked | server/server.py:84 | the masked assignment into a window keeps the raster's shape |
| Animation.CreateCircle | server/server.py:75-85 | the mask is a (2 radius + 1)-square raster, built as a black array with the ogrid disk assigned into the window [1, 2r + 1) on both axes |
| Animation.CircleMaskCells | server/server.py:80-84 | the ogrid index over offsets -r..r-1, assigned into the window starting at row and column 1 of a black mask, colours cell (i, j) exactly when 1 <= i, j <= 2r and (i-r-1)^2 + (j-r-1)^2 <= r^2; every other cell stays black |
| Animation.CircleMaskSymmetric | server/server.py:80-84 | the mask is symmetric under transposition; row 0 and column 0 are black |
| Animation.CircleMaskExtent | server/server.py:80-84 | the lit part reaches columns 1 and 2r on the middle row and rows 1 and 2r on the middle column |
| Animation.Background | server/server.py:39 | the background is a 480x640 raster |
| Animation.Paste | server/server.py:45-46 | writing the mask into a window of the canvas keeps the canvas's shape; which pixels it lights is stated by `Animation.CircleFramePixel` |
| Animation.CircleFrame | server/server.py:43-56 | the frame for one position is a 480x640 raster; `Animation.CircleFramePixel` and `Server.FramePixel` state its pixels |
| Animation.CircleFramePixel | server/server.py:43-46 | pasting the mask with its top-left corner at (map - 50) lights exactly the pixels within 50 of (map_x + 1, map_y + 1), less the disk's last row and column; all other pixels are black |
| Animation.FrameTable | server/server.py:41-61 | the frame list has exactly 60 entries, each a 480x640 raster |
| Animation.FrameTableAt | server/server.py:41-61 | entry i is step i of the path for i < 30 and step 59 - i after that |
| Animation.CircleVideoStreamTrack.constructor | server/server.py:29-61 | the two loops of `__init__` build exactly the frame table, and the counter starts at 0 |
| Animation.CircleVideoStreamTrack.Recv | server/server.py:63-73 | returns frames[counter mod 60], increments the counter by exactly 1, and leaves the frames unchanged |
| Animation.FrameAndSixtyLater | server/server.py:63-73 | for a track at any counter c, the frame handed out at c and the one handed out sixty calls later are the same entry, frames[c mod 60]; the counter ends at c + 61 |
| Animation.FirstAndSixtyFirstFrames | server_test.py:25-35 | on a fresh track, the first frame handed out and the frame handed out after sixty more calls are the same, the table's first entry |
| Server.CalcCoords | server/server.py:122-137 | x equals y; for counts 0 to 59 the position lies between 55 and 345 and the mask fits in the frame |
| Server.CalcCoordsMirror | server/server.py:129-137 | for counts 0 to 59, count k and count 59 - k give the same position |
| Server.CalcCoordsMotion | server/server.py:129-137 | the position moves +10 per count up to 29, repeats at 29 and 30, moves -10 per count back, and count 59 equals count 0 |
| Server.CalcCoordsPastPeriod | server/server.py:129-137 | for count >= 60, the unreduced closed form lies before the path's start and differs from the position of every count in 0 to 59 |
| Server.TableMatchesCalcCoords | server/server.py:41-61 | frame table entry i pastes the mask at calc_coords(i) minus the radius on both axes |
| Server.FramePixel | server/server.py:41-61 | frame i is white exactly on the disk of radius 50 around calc_coords(i) + 1, less its last row and column, and black elsewhere |
| Server.Compare | server/server.py:170-176 | ValueError exactly when int() failed on a field; otherwise the two parsed values, the ground truth calc_coords(count), and a squared error that is 0 exactly when both coordinates match |
| Server.OnMessage | server/server.py:158-178 | a non-string payload and a string without a comma are ignored ("pong" among them); a comparison carries calc_coords(count) and a non-negative squared error, 0 exactly on a hit |
| Server.OnMessageSplits | server/server.py:168-170 | a string with a comma is judged on the first two fields of its split |
| Server.OnMessageFirstTwoFields | server/server.py:169-172 | with fields a, b and any further fields, the handler fails exactly when a or b is not an integer, reads x from a and y from b, and ignores the rest |
| Server.ReportRoundTrip | server/server.py:169-176 | the report str(x) + "," + str(y) is parsed back to exactly (x, y) and compared with calc_coords(count); the squared error is non-negative and zero exactly when the report hits the ground truth |
| Server.Dispatch | server/server.py:195-206 | nothing happens exactly for BYE and unrecognised objects, and a description is applied before anything is sent; `Server.DispatchEffects` counts each kind of action |
| Server.DispatchEffects | server/server.py:195-209 | per signaling object: an offer is applied and answered once; any other description is applied and answered with one new offer; a candidate is added with nothing sent; anything else does nothing |
| Server.OfferLoop | server/server.py:188-209 | the handler is called at most once per event and the count never goes down; the `Server.OfferLoop*` lemmas, `Server.HandlerSeesCurrentCount` and `Server.KeepConnectionOpen` state what the run holds |
| Server.OfferLoopAnswersOffers | server/server.py:195-204 | over the objects before the first BYE, answers sent = offers received and new offers sent = other descriptions received |
| Server.OfferLoopAppliesSignals | server/server.py:195-206 | over the objects before the first BYE, remote descriptions set = descriptions received and candidates added = candidates received |
| Server.OfferLoopHandlesMessages | server/server.py:188-209 | every channel payload before the first BYE reaches the handler exactly once; the loop exits exactly when a BYE arrives |
| Server.OfferLoopStopsAtBye | server/server.py:207-209 | nothing after the first BYE changes the run, and the run exits |
| Server.HandlerSeesCurrentCount | server/server.py:188-192 | a payload preceded by n payloads and s signaling objects is the (n+1)-th handler call, and it sees the count advanced once per signaling object, count + s |
| Server.RunOffer | server/server.py:98-209 | the trace is channel creation, connect, add track, send offer, then the loop's trace; the feedback is on_message applied to each handler call of the loop; the exit flag is the loop's |
| Server.KeepConnectionOpen | server/server.py:188-209 | the loop, which calls recv on the reference track before each signaling object, produces exactly the OfferLoop trace, handler calls and exit flag; it leaves the reference's frames unchanged and its counter at 1 + the number of signaling objects handled before BYE |
| Server.OfferLoopTicks | server/server.py:188-209 | the counter at the end of the loop is the starting count plus one per signaling object handled before BYE |
| Server.ChannelSend | server/server.py:88-96 | sends exactly when the message is a string and the target a data channel, and then sends the message unchanged; otherwise it fails the assertion and sends nothing |
| Server.ChannelSendRejectsBadArguments | server_test.py:37-57 | a string sent to a non-channel and a non-string sent to a channel both fail the assertion, and nothing reaches the channel |
| Client.ChannelSend | client.py:16-17 | the message is sent unchanged, with no checks |
| Client.PingReply | client.py:52-54 | a reply is always "pong", and only a string starting with "ping" gets one |
| Client.PingPrefixAnswered | client.py:52-54 | every string starting with "ping", such as "pingX", gets the reply "pong" |
| Client.PongUnanswered | client.py:52-54 | "pong" and non-string payloads get no reply |
| Client.OnMessage | client.py:49-54 | the channel gets exactly one "pong" when the payload is a string starting with "ping", and nothing otherwise |
| Client.Dispatch | client.py:23-31 | nothing happens exactly for BYE and unrecognised objects, and a description is applied before anything is sent; `Client.DispatchEffects` counts each kind of action |
| Client.DispatchEffects | client.py:23-31 | per signaling object: an offer is applied and answered once; any other description is only applied; a candidate is added with nothing sent; anything else does nothing |
| Client.AnswerLoop | client.py:19-54 | at most one reply per event; the `Client.AnswerLoop*` lemmas and `Client.ConsumeSignaling` state what the run holds |
| Client.AnswerLoopAnswersOffers | client.py:23-29 | over the objects before the first BYE, answers sent = offers received and nothing else is sent |
| Client.AnswerLoopAppliesSignals | client.py:23-31 | over the objects before the first BYE, remote descriptions set = descriptions received and candidates added = candidates received |
| Client.AnswerLoopPongsPings | client.py:49-54 | the replies number the ping-prefixed string payloads before the first BYE and are all "pong"; the loop exits exactly when a BYE arrives |
| Client.AnswerLoopStopsAtBye | client.py:20-34 | nothing after the first BYE changes the run, and the run exits |
| Client.ConsumeSignaling | client.py:19-34 | the loop produces exactly the AnswerLoop trace and exit flag, and appends exactly its replies to the channel |
| Client.RunAnswer | client.py:36-55 | the trace is connect, then the loop's trace; what the client sends on the channel is the loop's replies |
| Text.Split | server/server.py:170 | the fields are comma-free, join back to the string, and number at least two exactly when the string has a comma |
| Text.SplitJoin | server/server.py:170 | splitting the join of comma-free fields gives the fields back |
| Text.TrimStartRemovesSpace | server/server.py:171-172 | what int() strips from the front of a field is white space |
| Text.TrimEndRemovesSpace | server/server.py:171-172 | what int() strips from the end of a field is white space |
| Text.DigitGroupShape | server/server.py:171-172 | a digit group int() accepts ends with a digit and holds only digits and underscores |
| Text.DigitsAreGroup | server/server.py:171-172 | every non-empty run of decimal digits is a digit group int() accepts |
| Text.ParseInt | server/server.py:171-172 | an accepted field, once stripped, starts with a sign or a digit, and a negative value comes only with a leading '-'; `Text.ParseIntOfIntToString`, `Text.ParseIntRejectsBlank`, `Text.ParseIntRejectsSeparator` and `Server.OnMessageFirstTwoFields` state what it accepts and returns |
| Text.IntToString | server/server.py:175 | `str(n)` is one or more characters, leads with '-' exactly when n is negative, and is otherwise decimal digits; `Text.ParseIntOfIntToString` proves int() reads it back as n |
| Text.ParseIntOfIntToString | server/server.py:171-172 | int(str(n)) == n for every integer n |
| Text.ParseIntRejectsBlank | server/server.py:171-172 | int() fails on an empty or all-white-space field |
| Text.IntSpaceIsUnicodeSpace | server/server.py:171-172 | what int() skips is white space to str.isspace, and the separators U+001C to U+001F are white space to str.isspace but not skipped |
| Text.ParseIntRejectsSeparator | server/server.py:171-172 | int("\x1c5") fails: a leading file separator is not skipped |

## Left out

- The aiortc, av and OpenCV machinery is not modelled: peer connection, TCP signaling, creating and setting descriptions, `VideoFrame.from_ndarray`, the float32 and uint8 conversions, `cv2`. Each call into it is one action in the trace. A description's SDP text is carried but never read.
- `recv` awaits `next_timestamp` and stamps `pts` and `time_base` on the shared frame object (server/server.py:67-71). Both timing values are left out, so `Animation.CircleVideoStreamTrack.Recv` says nothing about them.
- `send_pings` and the channel's "open" handler (server/server.py:141-156) are left out. They send `"ping"` once a second forever, which is timing and concurrency. The client's answer to each ping is modelled.
- `Server.OnMessage` gives the squared distance, not the `np.sqrt` error it prints. Floating point is not modelled. Nor is the `TypeError` that `np.sqrt` raises on a Python `int` of 2**64 or more (server/server.py:176). For a report such as `"10000000000,0"`, the real handler prints its first two lines and then raises. The model still returns `Compared` with the exact squared error, and `Server.Compare` and `Server.ReportRoundTrip` say the same.
- `print` calls, the `__main__` blocks, the recorder and `on_track` in `run_answer`, and `cv2.VideoCapture` are left out. They are logging and process set-up.
- The `isinstance` assertions on `pc` and `signaling` at the top of `run_offer` are left out. The model cannot pass other objects there.
- Timing is abstracted. Real payloads can arrive at any await point, and the loops wait forever. In the model, payloads are interleaved with signaling objects in one event sequence, and a loop also ends when the sequence is exhausted. A payload can also arrive while `recv` waits on `next_timestamp` (server/server.py:67, 190). The real handler then sees the previous `count`, which is one less than the value the model gives it. The model takes each `recv` as finishing before the next event.
- A payload that arrives before the first `recv`, while `count` is still unbound, would raise `NameError` in the server's handler. Such payloads are not modelled: the model's server loop takes its first `recv` before any event.
- `Server.OnMessage` records a raised `ValueError` and the loop goes on. What the event emitter does with the exception afterwards is not modelled.
- `int()` is modelled for ASCII decimal digits only. Python also accepts other Unicode decimal digits; those are left out.
- Text.ParseIntOfIntToString: Python 3.11 and later raise `ValueError` in `int()` and `str()` past 4300 decimal digits, by default. The model has no such limit, so its round trip holds for every integer; under that limit it holds only up to 4300 digits.
- The frame list is a `seq` field assigned once by the constructor. The model does not capture that `recv` returns the same mutable frame object every 60 calls.
- `server.py` at the top level only imports modules and has an unfinished `__main__`. The detector in `client/client_test.py` belongs to a client module that is not part of this model.

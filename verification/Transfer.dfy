/** What a finished iteration means without tapes: the numbers it reports, and the frames and bytes each side received.
 */
module Transfer {
  import opened Basics
  import opened Bodies
  import opened Folds
  import opened Http2
  import opened Exchange
  import opened Requests
  import opened Scenarios

  // ---------------------------------------------------------------- the scenario in numbers

  lemma {:induction false} EqualParts(parts: seq<seq<Byte>>, body: seq<Byte>)
    requires forall i :: 0 <= i < |parts| ==> parts[i] == body
    ensures Sum(Length, parts) == |parts| * |body|
  {
    if parts != [] {
      EqualParts(parts[1..], body);
      Product(|parts| - 1, |body|);
    }
  }

  lemma Product(n: nat, size: nat)
    ensures (n + 1) * size == n * size + size
  {
  }

  /** The request body as often as the scenario says: once without a chunk count, and never for a negative one. */
  lemma RequestPartsAre(scenario: Scenario)
    ensures forall part <- scenario.RequestParts() :: part == scenario.requestBody
    ensures |scenario.RequestParts()|
         == if scenario.requestChunks > 0 then scenario.requestChunks
            else if scenario.requestChunks == 0 && scenario.requestBody != [] then 1 else 0
    ensures Sum(Length, scenario.RequestParts())
         == (if scenario.requestChunks > 0 then scenario.requestChunks
             else if scenario.requestChunks == 0 then 1 else 0) * |scenario.requestBody|
  {
    EqualParts(scenario.RequestParts(), scenario.requestBody);
  }

  /** Requests, request bytes, responses and response bytes. */
  predicate Reports(scenario: Scenario, result: seq<nat>) {
    var requests := if scenario.parallel > 0 then scenario.parallel else 0;
    var copies := if scenario.requestChunks > 0 then scenario.requestChunks
                  else if scenario.requestChunks == 0 then 1 else 0;
    result == [requests, requests * (copies * |scenario.requestBody|), requests, requests * |scenario.responseBody|]
  }

  lemma TotalsInNumbers(scenario: Scenario)
    ensures Reports(scenario, scenario.TotalsOf(scenario.Iterations()))
  {
    RequestPartsAre(scenario);
  }

  // ---------------------------------------------------------------- frames and bytes

  function PayloadOn(s: StreamId): Frame -> seq<Byte> {
    (f: Frame) => if f.Data? && f.id == s then f.payload else []
  }

  /** The body that an application puts together from the DATA frames of a stream. */
  function Payload(s: StreamId, frames: seq<Frame>): seq<Byte> {
    FlatMap(PayloadOn(s), frames)
  }

  function HeadersOn(s: StreamId): Frame -> nat {
    (f: Frame) => if f.Headers? && f.id == s then 1 else 0
  }

  function EndsOn(s: StreamId): Frame -> nat {
    (f: Frame) => if !f.WindowUpdate? && f.id == s && f.end then 1 else 0
  }

  function SymbolBytes(x: Symbol): seq<Byte> { if x.Octet? then [x.byte] else [] }
  function IsHead(x: Symbol): nat { if x == Head then 1 else 0 }
  function IsEnd(x: Symbol): nat { if x == End then 1 else 0 }

  function TapeBytes(t: Tape): seq<Byte> { FlatMap(SymbolBytes, t) }

  lemma {:induction false} OctetsCarry(data: seq<Byte>)
    ensures TapeBytes(Octets(data)) == data && Sum(IsHead, Octets(data)) == 0 && Sum(IsEnd, Octets(data)) == 0
  {
    if data != [] {
      OctetsCarry(data[1..]);
      assert Octets(data)[0] == Octet(data[0]) && Octets(data)[1..] == Octets(data[1..]);
      assert TapeBytes(Octets(data)) == [data[0]] + data[1..];
    }
  }

  lemma BodyCarries(data: seq<Byte>)
    ensures TapeBytes(Body(data)) == data && Sum(IsHead, Body(data)) == 0 && Sum(IsEnd, Body(data)) == 0
  {
    if data == [] {
      assert Body(data) == [Empty];
    } else {
      OctetsCarry(data);
      assert Body(data) == Octets(data);
    }
  }

  lemma FrameCarries(f: Frame, s: StreamId)
    ensures TapeBytes(FrameTape(f, s)) == PayloadOn(s)(f)
    ensures Sum(IsHead, FrameTape(f, s)) == HeadersOn(s)(f) && Sum(IsEnd, FrameTape(f, s)) == EndsOn(s)(f)
  {
    if f.id == s && !f.WindowUpdate? {
      var start := if f.Headers? then [Head] else Body(f.payload);
      if f.Data? {
        BodyCarries(f.payload);
      }
      assert FrameTape(f, s) == start + EndMark(f.end);
      FlatMapConcat(SymbolBytes, start, EndMark(f.end));
      SumConcat(IsHead, start, EndMark(f.end));
      SumConcat(IsEnd, start, EndMark(f.end));
    }
  }

  /** The tape of a stream says what its frames say. */
  lemma {:induction false} TapeCarries(s: StreamId, frames: seq<Frame>)
    ensures TapeBytes(TapeOf(s, frames)) == Payload(s, frames)
    ensures Sum(IsHead, TapeOf(s, frames)) == Sum(HeadersOn(s), frames)
    ensures Sum(IsEnd, TapeOf(s, frames)) == Sum(EndsOn(s), frames)
  {
    hide FrameTape;
    if frames != [] {
      TapeCarries(s, frames[1..]);
      FrameCarries(frames[0], s);
      FlatMapConcat(SymbolBytes, FrameTape(frames[0], s), TapeOf(s, frames[1..]));
      SumConcat(IsHead, FrameTape(frames[0], s), TapeOf(s, frames[1..]));
      SumConcat(IsEnd, FrameTape(frames[0], s), TapeOf(s, frames[1..]));
    }
  }

  lemma {:induction false} PartsCarry(parts: seq<seq<Byte>>)
    ensures var t := FlatMap(Body, parts);
            TapeBytes(t) == Join(parts) && Sum(IsHead, t) == 0 && Sum(IsEnd, t) == 0
  {
    if parts != [] {
      var first, rest := Body(parts[0]), FlatMap(Body, parts[1..]);
      BodyCarries(parts[0]);
      PartsCarry(parts[1..]);
      FlatMapConcat(SymbolBytes, first, rest);
      SumConcat(IsHead, first, rest);
      SumConcat(IsEnd, first, rest);
    }
  }

  lemma MessageCarries(parts: seq<seq<Byte>>)
    ensures var t := MessageTape(parts);
            TapeBytes(t) == Join(parts) && Sum(IsHead, t) == 1 && Sum(IsEnd, t) == 1
  {
    hide Body;
    var t := FlatMap(Body, parts);
    PartsCarry(parts);
    FlatMapConcat(SymbolBytes, [Head] + t, [End]);
    FlatMapConcat(SymbolBytes, [Head], t);
    SumConcat(IsHead, [Head] + t, [End]);
    SumConcat(IsHead, [Head], t);
    SumConcat(IsEnd, [Head] + t, [End]);
    SumConcat(IsEnd, [Head], t);
  }

  /** One HEADERS frame, one END_STREAM and this body arrived on the stream. */
  predicate HasMessage(s: StreamId, frames: seq<Frame>, body: seq<Byte>) {
    Payload(s, frames) == body && Sum(HeadersOn(s), frames) == 1 && Sum(EndsOn(s), frames) == 1
  }

  /** On each of the `n` new streams the server received the request and the client the response. */
  ghost predicate Transferred(after: World, first: StreamId, n: nat, request: seq<Byte>, response: seq<Byte>) {
    forall s :: IsNew(first, n, s) ==>
      HasMessage(s, after.server.conn.received, request) && HasMessage(s, after.client.conn.received, response)
  }

  lemma MessageArrived(s: StreamId, frames: seq<Frame>, parts: seq<seq<Byte>>)
    requires TapeOf(s, frames) == MessageTape(parts)
    ensures HasMessage(s, frames, Join(parts))
  {
    hide TapeOf, MessageTape;
    TapeCarries(s, frames);
    MessageCarries(parts);
  }

  lemma ExchangeTransfers(before: World, after: World, first: StreamId, n: nat, parts: seq<seq<Byte>>, body: seq<Byte>)
    requires Exchanged(before, after, first, n, parts, body)
    ensures Transferred(after, first, n, Join(parts), body)
  {
    hide TapeOf, MessageTape, HasMessage;
    forall s | IsNew(first, n, s)
      ensures HasMessage(s, after.server.conn.received, Join(parts)) && HasMessage(s, after.client.conn.received, body)
    {
      MessageArrived(s, after.server.conn.received, parts);
      MessageArrived(s, after.client.conn.received, BodyParts(body));
      assert Join(BodyParts(body)) == body;
    }
  }
}

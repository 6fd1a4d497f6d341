/** The protocol engine the exchange talks to, as far as a caller can observe it.

    `H2Connection` is a library class whose code is not part of this model. Its contract
    here is flow control as RFC 9113 states it (sections 4.1, 5.2, 6.9 and 6.9.1):
    a sender spends the stream window and the connection window together, and a receiver
    collects acknowledged bytes and may keep them back, but never as many as `threshold`.
 */
module Http2 {
  import opened Basics
  import opened Folds

  /** Key 0 stands for the connection wherever a stream identifier is expected (section 6.9). */
  const CONNECTION: StreamId := 0

  datatype Frame =
    | Headers(id: StreamId, end: bool)
    | Data(id: StreamId, payload: seq<Byte>, end: bool)
    | WindowUpdate(id: StreamId, increment: nat)

  /** The events of `receive_data` that the exchange looks at. `DataConsumed` is data the connection has
      acknowledged itself; it only waits to be counted. */
  datatype Event =
    | RequestReceived(id: StreamId)
    | ResponseReceived(id: StreamId)
    | DataReceived(id: StreamId, data: seq<Byte>)
    | DataConsumed(id: StreamId, data: seq<Byte>)
    | StreamEnded(id: StreamId)

  /** What one stream carries, symbol by symbol. An empty DATA payload is a symbol of its own,
      so a tape also shows frames without bytes. */
  datatype Symbol = Head | Octet(byte: Byte) | Empty | End

  type Tape = seq<Symbol>

  function EndMark(end: bool): Tape {
    if end then [End] else []
  }

  function Body(data: seq<Byte>): Tape {
    if data == [] then [Empty] else seq(|data|, i requires 0 <= i < |data| => Octet(data[i]))
  }

  lemma BodySplit(data: seq<Byte>, size: nat)
    requires 0 < size < |data|
    ensures Body(data[..size]) + Body(data[size..]) == Body(data)
  {
  }

  lemma NoEndInBody(data: seq<Byte>)
    ensures End !in Body(data)
  {
  }

  /** END_STREAM, if it was sent, is the last thing on the stream. */
  predicate WellEnded(t: Tape) {
    forall i :: 0 <= i < |t| - 1 ==> t[i] != End
  }

  function FrameTape(f: Frame, s: StreamId): Tape {
    if f.id != s then []
    else match f
      case Headers(_, end) => [Head] + EndMark(end)
      case Data(_, payload, end) => Body(payload) + EndMark(end)
      case WindowUpdate(_, _) => []
  }

  function OnStream(s: StreamId): Frame -> Tape {
    (f: Frame) => FrameTape(f, s)
  }

  function TapeOf(s: StreamId, frames: seq<Frame>): Tape {
    FlatMap(OnStream(s), frames)
  }

  /** DATA bytes charged to window `k`: every DATA frame counts against the connection. */
  function BytesOn(k: StreamId): Frame -> nat {
    (f: Frame) => if f.Data? && (k == CONNECTION || f.id == k) then |f.payload| else 0
  }

  /** Credit that WINDOW_UPDATE frames return to window `k`. */
  function CreditOn(k: StreamId): Frame -> nat {
    (f: Frame) => if f.WindowUpdate? && f.id == k then f.increment else 0
  }

  function EventBytesOn(k: StreamId): Event -> nat {
    (e: Event) => if e.DataReceived? && (k == CONNECTION || e.id == k) then |e.data| else 0
  }

  function Bytes(frames: seq<Frame>): nat {
    Sum(BytesOn(CONNECTION), frames)
  }

  function EventsOf(serverSide: bool): Frame -> seq<Event> {
    (f: Frame) =>
      match f
      case Headers(id, end) =>
        [if serverSide then RequestReceived(id) else ResponseReceived(id)] + (if end then [StreamEnded(id)] else [])
      case Data(id, payload, end) =>
        [DataReceived(id, payload)] + (if end then [StreamEnded(id)] else [])
      case WindowUpdate(_, _) => []
  }

  /** `window`: initial size of every window; `frame`: largest outbound DATA payload;
      `threshold`: withheld receive credit always stays below it. */
  datatype Limits = Limits(window: nat, frame: nat, threshold: nat)

  /** The state of one connection object. `outbox` is what `data_to_send` will return,
      `received` every frame processed so far, oldest first. */
  datatype Endpoint = Endpoint(
    limits: Limits,
    outbox: seq<Frame>,
    received: seq<Frame>,
    windows: map<StreamId, nat>,
    kept: map<StreamId, nat>,
    localEnded: set<StreamId>,
    remoteEnded: set<StreamId>)
  {
    /** The send window of a stream, or of the connection. */
    function Window(k: StreamId): nat {
      if k in windows then windows[k] else limits.window
    }

    /** Acknowledged bytes whose credit has not been returned to the peer yet. */
    function Withheld(k: StreamId): nat {
      if k in kept then kept[k] else 0
    }

    /** `local_flow_control_window` */
    function Capacity(id: StreamId): nat {
      Min(Window(CONNECTION), Window(id))
    }

    function Emit(frames: seq<Frame>): Endpoint {
      this.(outbox := outbox + frames)
    }

    function SendHeaders(id: StreamId, end: bool): Endpoint {
      Emit([Headers(id, end)]).(localEnded := localEnded + if end then {id} else {})
    }

    /** DATA frames of one stream, spending the stream window and the connection window. */
    function SendFrames(id: StreamId, frames: seq<Frame>): Endpoint
      requires Bytes(frames) <= Capacity(id)
    {
      if frames == [] then this
      else
        Emit(frames).(
          windows := windows[CONNECTION := Window(CONNECTION) - Bytes(frames)][id := Window(id) - Bytes(frames)],
          localEnded := localEnded + if End in TapeOf(id, frames) then {id} else {})
    }

    /** One inbound frame. Credit for a stream that this side has ended may be ignored (`keep`). */
    function Receive(f: Frame, keep: bool): Endpoint {
      var e := this.(received := received + [f]);
      match f
      case Headers(id, end) => e.(remoteEnded := remoteEnded + if end then {id} else {})
      case Data(id, _, end) => e.(remoteEnded := remoteEnded + if end then {id} else {})
      case WindowUpdate(k, n) =>
        if k in localEnded && !keep then e else e.(windows := windows[k := Window(k) + n])
    }

    /** Credit the receiver may return when `n` more bytes of a stream are acknowledged: any part of
        what it holds, as long as less than `threshold` stays behind. Nothing obliges it to
        return stream credit once the peer has ended the stream. */
    predicate MayRelease(id: StreamId, n: nat, connection: nat, stream: nat) {
      && connection <= Withheld(CONNECTION) + n
      && Withheld(CONNECTION) + n - connection < limits.threshold
      && stream <= Withheld(id) + n
      && (id !in remoteEnded ==> Withheld(id) + n - stream < limits.threshold)
    }

    function Acknowledge(id: StreamId, n: nat, connection: nat, stream: nat): Endpoint
      requires MayRelease(id, n, connection, stream)
    {
      Emit(Credit(CONNECTION, connection) + Credit(id, stream)).(
        kept := kept[CONNECTION := Withheld(CONNECTION) + n - connection][id := Withheld(id) + n - stream])
    }
  }

  function Credit(k: StreamId, n: nat): seq<Frame> {
    if n == 0 then [] else [WindowUpdate(k, n)]
  }

  function Fresh(limits: Limits): Endpoint {
    Endpoint(limits, [], [], map[], map[], {}, {})
  }

  function ReceiveAll(e: Endpoint, frames: seq<Frame>, keeps: seq<bool>): Endpoint
    requires |keeps| == |frames|
    decreases |frames|
  {
    if frames == [] then e else ReceiveAll(e.Receive(frames[0], keeps[0]), frames[1..], keeps[1..])
  }

  lemma {:induction false} ReceiveOneMore(e: Endpoint, frames: seq<Frame>, keeps: seq<bool>, f: Frame, keep: bool)
    requires |keeps| == |frames|
    ensures ReceiveAll(e, frames + [f], keeps + [keep]) == ReceiveAll(e, frames, keeps).Receive(f, keep)
    decreases |frames|
  {
    if frames == [] {
      assert frames + [f] == [f] && keeps + [keep] == [keep];
    } else {
      ReceiveOneMore(e.Receive(frames[0], keeps[0]), frames[1..], keeps[1..], f, keep);
      assert (frames + [f])[1..] == frames[1..] + [f] && (keeps + [keep])[1..] == keeps[1..] + [keep];
    }
  }

  lemma {:induction false} ReceiveAllKeepsLimits(e: Endpoint, frames: seq<Frame>, keeps: seq<bool>)
    requires |keeps| == |frames|
    ensures ReceiveAll(e, frames, keeps).limits == e.limits
    decreases |frames|
  {
    if frames != [] {
      ReceiveAllKeepsLimits(e.Receive(frames[0], keeps[0]), frames[1..], keeps[1..]);
    }
  }

  /** One side of the connection, with the calls the exchange makes on it. A `requires` clause
      is a call the library answers with an exception. */
  class H2Connection {
    const serverSide: bool
    var state: Endpoint
    var nextStream: StreamId

    constructor (serverSide: bool, limits: Limits)
      ensures this.serverSide == serverSide
      ensures state == Fresh(limits) && nextStream == 1
    {
      this.serverSide := serverSide;
      state := Fresh(limits);
      nextStream := 1;
    }

    /** Streams a client opens have odd identifiers (section 5.1.1). */
    method GetNextAvailableStreamId() returns (id: StreamId)
      ensures id == nextStream
    {
      id := nextStream;
    }

    method SendHeaders(id: StreamId, end: bool)
      requires id > 0 && id !in state.localEnded
      modifies this`state, this`nextStream
      ensures state == old(state).SendHeaders(id, end)
      ensures nextStream == if id >= old(nextStream) then id + 2 else old(nextStream)
    {
      state := state.SendHeaders(id, end);
      if id >= nextStream {
        nextStream := id + 2;
      }
    }

    method SendData(id: StreamId, payload: seq<Byte>, end: bool)
      requires id > 0 && id !in state.localEnded
      requires |payload| <= state.Capacity(id) && |payload| <= state.limits.frame
      modifies this`state
      ensures state == old(state).SendFrames(id, [Data(id, payload, end)])
    {
      state := state.SendFrames(id, [Data(id, payload, end)]);
    }

    method DataToSend() returns (wire: seq<Frame>)
      modifies this`state
      ensures wire == old(state).outbox && state == old(state).(outbox := [])
    {
      wire := state.outbox;
      state := state.(outbox := []);
    }

    /** Processes whole frames; which late credits were ignored is reported as `keeps`. */
    method ReceiveData(batch: seq<Frame>) returns (events: seq<Event>, ghost keeps: seq<bool>)
      modifies this`state
      ensures |keeps| == |batch| && state == ReceiveAll(old(state), batch, keeps)
      ensures events == FlatMap(EventsOf(serverSide), batch) && forall e <- events :: !e.DataConsumed?
    {
      events, keeps := [], [];
      for i := 0 to |batch|
        invariant |keeps| == i && state == ReceiveAll(old(state), batch[..i], keeps)
        invariant events == FlatMap(EventsOf(serverSide), batch[..i]) && forall e <- events :: !e.DataConsumed?
      {
        var keep: bool := *;
        ReceiveOneMore(old(state), batch[..i], keeps, batch[i], keep);
        FlatMapConcat(EventsOf(serverSide), batch[..i], [batch[i]]);
        assert batch[..i] + [batch[i]] == batch[..i + 1];
        state := state.Receive(batch[i], keep);
        events := events + EventsOf(serverSide)(batch[i]);
        keeps := keeps + [keep];
      }
      assert batch[..|batch|] == batch;
    }

    method AcknowledgeReceivedData(n: nat, id: StreamId) returns (ghost connection: nat, ghost stream: nat)
      requires state.limits.threshold > 0 && id > 0
      modifies this`state
      ensures old(state).MayRelease(id, n, connection, stream)
      ensures state == old(state).Acknowledge(id, n, connection, stream)
    {
      assert state.MayRelease(id, n, state.Withheld(CONNECTION) + n, state.Withheld(id) + n);
      var c, s :| state.MayRelease(id, n, c, s);
      connection, stream := c, s;
      state := state.Acknowledge(id, n, c, s);
    }
  }
}

/** The send queue of an `ngh2.Connection`: one body per stream, to which `send_data` appends. Empty data adds
    nothing to it, and the end of the body is a mark, so parts cannot be told apart any more.

    A body is kept as an entry with one chunk, from the moment there is something to send.
 */
module Bodies {
  import opened Basics
  import opened Folds
  import opened Http2
  import opened Flush
  import opened Direction
  import opened Exchange

  // ---------------------------------------------------------------- what an application sees

  function Seen(x: Symbol): Tape { if x == Empty then [] else [x] }
  function Unseen(x: Symbol): nat { if x == Empty then 1 else 0 }
  function EmptyPart(part: seq<Byte>): nat { if part == [] then 1 else 0 }

  /** What an application can tell from a stream: everything but DATA frames without bytes. */
  function Visible(t: Tape): Tape { FlatMap(Seen, t) }

  lemma {:induction false} WithoutEmpty(t: Tape)
    requires Empty !in t
    ensures Visible(t) == t && Sum(Unseen, t) == 0
  {
    if t != [] {
      WithoutEmpty(t[1..]);
    }
  }

  function Octets(data: seq<Byte>): Tape {
    seq(|data|, i requires 0 <= i < |data| => Octet(data[i]))
  }

  lemma BodyVisible(data: seq<Byte>)
    ensures Visible(Body(data)) == Octets(data) && Sum(Unseen, Body(data)) == EmptyPart(data)
  {
    if data == [] {
      assert Body(data) == [Empty];
    } else {
      WithoutEmpty(Body(data));
    }
  }

  // ---------------------------------------------------------------- one body per stream

  function Extend(q: Queue, data: seq<Byte>, end: bool): Queue
    requires q != []
  {
    q[..|q| - 1] + [Chunk(q[|q| - 1].data + data, end)]
  }

  /** `send_data` */
  function Submit(entries: seq<Entry>, id: StreamId, data: seq<Byte>, end: bool): seq<Entry> {
    if entries == [] then Started(id, data, end)
    else if entries[0].id == id && entries[0].queue != [] then
      [Entry(id, Extend(entries[0].queue, data, end))] + entries[1..]
    else [entries[0]] + Submit(entries[1..], id, data, end)
  }

  /** The first data of a body; nothing that does not end it either leaves nothing to send. */
  function Started(id: StreamId, data: seq<Byte>, end: bool): seq<Entry> {
    if data == [] && !end then [] else [Entry(id, [Chunk(data, end)])]
  }

  predicate Absent(entries: seq<Entry>, id: StreamId) {
    forall p <- entries :: p.id != id
  }

  lemma {:induction false} SubmitKeepsPendingOk(entries: seq<Entry>, id: StreamId, data: seq<Byte>, end: bool)
    requires PendingOk(entries)
    ensures PendingOk(Submit(entries, id, data, end))
    ensures forall p <- Submit(entries, id, data, end) :: p.id == id || exists q <- entries :: q.id == p.id
  {
    if entries != [] && entries[0].id != id {
      SubmitKeepsPendingOk(entries[1..], id, data, end);
    }
  }

  /** A body that has not ended ends, if at all, with the last thing submitted; other streams do not notice. */
  lemma {:induction false} SubmitEnds(entries: seq<Entry>, id: StreamId, data: seq<Byte>, end: bool, s: StreamId)
    requires PendingOk(entries) && End !in PendingTape(entries, id)
    ensures var t := PendingTape(Submit(entries, id, data, end), s);
            if s == id then WellEnded(t) && (End in t <==> end) else t == PendingTape(entries, s)
  {
    if entries == [] {
      NoEndInBody(data);
    } else if entries[0].id == id {
      var q, rest := entries[0].queue, entries[1..];
      FlatMapHead(EntryTape(s), entries);
      if s == id {
        FlatMapEmpty(EntryTape(s), rest);
        ExtendEnds(q, data, end);
        assert [Entry(id, Extend(q, data, end))] + rest == Submit(entries, id, data, end);
        FlatMapConcat(EntryTape(s), [Entry(id, Extend(q, data, end))], rest);
        assert PendingTape(Submit(entries, id, data, end), s) == QueueTape(Extend(q, data, end));
      }
    } else {
      FlatMapHead(EntryTape(id), entries);
      SubmitEnds(entries[1..], id, data, end, s);
    }
  }

  lemma ExtendEnds(q: Queue, data: seq<Byte>, end: bool)
    requires q != [] && End !in QueueTape(q)
    ensures var t := QueueTape(Extend(q, data, end)); WellEnded(t) && (End in t <==> end)
  {
    hide FlatMap, Body, WellEnded;
    var n, last := |q| - 1, Chunk(q[|q| - 1].data + data, end);
    assert q[..n] + [q[n]] == q;
    FlatMapConcat(ChunkTape, q[..n], [q[n]]);
    FlatMapConcat(ChunkTape, q[..n], [last]);
    NoEndInBody(last.data);
    AppendEnd(QueueTape(q[..n]), Body(last.data), end);
  }

  lemma AppendEnd(a: Tape, b: Tape, end: bool)
    requires End !in a && End !in b
    ensures WellEnded(a + (b + EndMark(end))) && (End in a + (b + EndMark(end)) <==> end)
  {
    var t := a + (b + EndMark(end));
    if end {
      assert t[|t| - 1] == End;
    }
  }

  lemma VisibleConcat(a: Tape, b: Tape)
    ensures Visible(a + b) == Visible(a) + Visible(b)
  {
    FlatMapConcat(Seen, a, b);
  }

  lemma ChunkVisible(c: Chunk)
    ensures Visible(ChunkTape(c)) == Octets(c.data) + EndMark(c.end)
  {
    BodyVisible(c.data);
    WithoutEmpty(EndMark(c.end));
    VisibleConcat(Body(c.data), EndMark(c.end));
  }

  lemma ChunkEnd(c: Chunk)
    ensures c.end ==> End in ChunkTape(c)
  {
    var t := ChunkTape(c);
    assert c.end ==> t[|t| - 1] == End;
  }

  lemma ExtendAppends(q: Queue, data: seq<Byte>, end: bool)
    requires q != [] && End !in QueueTape(q)
    ensures Visible(QueueTape(Extend(q, data, end))) == Visible(QueueTape(q)) + (Octets(data) + EndMark(end))
  {
    hide FlatMap, Body, Visible;
    var n, last := |q| - 1, q[|q| - 1];
    var next := Chunk(last.data + data, end);
    assert q[..n] + [last] == q;
    FlatMapConcat(ChunkTape, q[..n], [last]);
    FlatMapConcat(ChunkTape, q[..n], [next]);
    ChunkEnd(last);
    assert End !in ChunkTape(last);
    VisibleConcat(QueueTape(q[..n]), ChunkTape(last));
    VisibleConcat(QueueTape(q[..n]), ChunkTape(next));
    ChunkVisible(last);
    ChunkVisible(next);
    assert Octets(next.data) == Octets(last.data) + Octets(data);
    Associate(Octets(last.data), Octets(data), EndMark(end));
    Associate(Visible(QueueTape(q[..n])), Octets(last.data), Octets(data) + EndMark(end));
  }

  /** Submitted bytes go behind everything their stream has queued, also when part of its body is framed already. */
  lemma {:induction false} SubmitAppends(entries: seq<Entry>, id: StreamId, data: seq<Byte>, end: bool, s: StreamId)
    requires PendingOk(entries) && End !in PendingTape(entries, id)
    ensures Visible(PendingTape(Submit(entries, id, data, end), s))
         == Visible(PendingTape(entries, s)) + if s == id then Octets(data) + EndMark(end) else []
  {
    hide Visible, Extend;
    if s != id {
      SubmitEnds(entries, id, data, end, s);
    } else if entries == [] {
      StartedVisible(id, data, end);
    } else if entries[0].id == id {
      var q, rest := entries[0].queue, entries[1..];
      FlatMapHead(EntryTape(id), entries);
      FlatMapEmpty(EntryTape(id), rest);
      FlatMapConcat(EntryTape(id), [Entry(id, Extend(q, data, end))], rest);
      assert PendingTape(entries, id) == QueueTape(q);
      assert Submit(entries, id, data, end) == [Entry(id, Extend(q, data, end))] + rest;
      assert PendingTape(Submit(entries, id, data, end), id) == QueueTape(Extend(q, data, end));
      ExtendAppends(q, data, end);
    } else {
      var after := Submit(entries[1..], id, data, end);
      FlatMapHead(EntryTape(id), entries);
      FlatMapHead(EntryTape(id), [entries[0]] + after);
      assert ([entries[0]] + after)[1..] == after && EntryTape(id)(entries[0]) == [];
      assert PendingTape(entries, id) == PendingTape(entries[1..], id);
      assert PendingTape(Submit(entries, id, data, end), id) == PendingTape(after, id);
      SubmitAppends(entries[1..], id, data, end, id);
    }
  }

  lemma StartedVisible(id: StreamId, data: seq<Byte>, end: bool)
    ensures Visible(PendingTape([], id)) == []
    ensures Visible(PendingTape(Started(id, data, end), id)) == Octets(data) + EndMark(end)
  {
    var chunk := Chunk(data, end);
    ChunkVisible(chunk);
    assert PendingTape([Entry(id, [chunk])], id) == QueueTape([chunk]) == ChunkTape(chunk);
  }

  function Submitted(x: Peer, id: StreamId, data: seq<Byte>, end: bool): Peer {
    x.(pending := Submit(x.pending, id, data, end))
  }

  lemma SubmitKeepsChannels(x: Peer, y: Peer, id: StreamId, data: seq<Byte>, end: bool)
    requires Channel(x, y) && Channel(y, x)
    requires id > 0 && End !in StreamTape(x, y, id)
    ensures Channel(Submitted(x, id, data, end), y) && Channel(y, Submitted(x, id, data, end))
    ensures forall s :: Visible(StreamTape(Submitted(x, id, data, end), y, s))
                     == Visible(StreamTape(x, y, s)) + if s == id then Octets(data) + EndMark(end) else []
  {
    hide Submit, PendingTape, TapeOf, Visible;
    var x' := Submitted(x, id, data, end);
    SubmitKeepsPendingOk(x.pending, id, data, end);
    forall k ensures FlowOk(x', y, k) && FlowOk(y, x', k) {
      assert FlowOk(x, y, k) && FlowOk(y, x, k);
    }
    forall s ensures StreamOk(x', y, s) && StreamOk(y, x', s) {
      assert StreamOk(x, y, s) && StreamOk(y, x, s);
      SubmitEnds(x.pending, id, data, end, s);
    }
    forall s
      ensures Visible(StreamTape(x', y, s))
           == Visible(StreamTape(x, y, s)) + if s == id then Octets(data) + EndMark(end) else []
    {
      SubmitAppends(x.pending, id, data, end, s);
      VisibleConcat(SentTape(x, y, s), PendingTape(x.pending, s));
      VisibleConcat(SentTape(x, y, s), PendingTape(x'.pending, s));
      Associate(Visible(SentTape(x, y, s)), Visible(PendingTape(x.pending, s)),
                if s == id then Octets(data) + EndMark(end) else []);
    }
  }

  // ---------------------------------------------------------------- a body submitted in parts

  /** A stream that is silent so far has no body in the queue. */
  lemma {:induction false} SilentIsAbsent(entries: seq<Entry>, id: StreamId)
    requires PendingOk(entries) && PendingTape(entries, id) == []
    ensures Absent(entries, id)
  {
    if entries != [] {
      FlatMapHead(EntryTape(id), entries);
      FlatMapHead(ChunkTape, entries[0].queue);
      SilentIsAbsent(entries[1..], id);
    }
  }

  function StartBody(entries: seq<Entry>, id: StreamId, data: seq<Byte>, end: bool): seq<Entry> {
    entries + Started(id, data, end)
  }

  lemma {:induction false} SubmitToAbsent(entries: seq<Entry>, id: StreamId, data: seq<Byte>, end: bool)
    requires Absent(entries, id)
    ensures Submit(entries, id, data, end) == StartBody(entries, id, data, end)
    ensures Enqueue(entries, id, Chunk(data, end)) == entries + [Entry(id, [Chunk(data, end)])]
  {
    if entries != [] {
      SubmitToAbsent(entries[1..], id, data, end);
    }
  }

  /** Submitting a body in two parts is submitting it at once. */
  lemma {:induction false} SubmitTwice(entries: seq<Entry>, id: StreamId, a: seq<Byte>, b: seq<Byte>, end: bool)
    requires Absent(entries, id)
    ensures Submit(StartBody(entries, id, a, false), id, b, end) == StartBody(entries, id, a + b, end)
  {
    if a == [] {
      assert a + b == b && entries + [] == entries;
      SubmitToAbsent(entries, id, b, end);
    } else if entries == [] {
      var started := [Entry(id, [Chunk(a, false)])];
      assert StartBody(entries, id, a, false) == started && started[1..] == [];
      assert Extend([Chunk(a, false)], b, end) == [Chunk(a + b, end)];
      assert StartBody(entries, id, a + b, end) == [Entry(id, [Chunk(a + b, end)])];
    } else {
      SubmitTwice(entries[1..], id, a, b, end);
      assert StartBody(entries, id, a, false)[1..] == StartBody(entries[1..], id, a, false);
      assert [entries[0]] + StartBody(entries[1..], id, a + b, end) == StartBody(entries, id, a + b, end);
    }
  }

  /** What becomes of the parts of a body. */
  function Merged(parts: seq<seq<Byte>>): seq<seq<Byte>> {
    if parts == [] then [] else [Join(parts)]
  }

  // ---------------------------------------------------------------- what merging a body changes

  lemma {:induction false} PartsVisible(parts: seq<seq<Byte>>)
    ensures Visible(FlatMap(Body, parts)) == Octets(Join(parts))
    ensures Sum(Unseen, FlatMap(Body, parts)) == Sum(EmptyPart, parts)
  {
    if parts != [] {
      PartsVisible(parts[1..]);
      BodyVisible(parts[0]);
      FlatMapConcat(Seen, Body(parts[0]), FlatMap(Body, parts[1..]));
      SumConcat(Unseen, Body(parts[0]), FlatMap(Body, parts[1..]));
      assert Octets(parts[0]) + Octets(Join(parts[1..])) == Octets(Join(parts));
    }
  }

  lemma MessageVisible(parts: seq<seq<Byte>>)
    ensures Visible(MessageTape(parts)) == [Head] + Octets(Join(parts)) + [End]
    ensures Sum(Unseen, MessageTape(parts)) == Sum(EmptyPart, parts)
  {
    var t := FlatMap(Body, parts);
    PartsVisible(parts);
    FlatMapConcat(Seen, [Head] + t, [End]);
    FlatMapConcat(Seen, [Head], t);
    SumConcat(Unseen, [Head] + t, [End]);
    SumConcat(Unseen, [Head], t);
  }

  /** A merged body carries the same octets and the same end. */
  lemma MergedSaysTheSame(parts: seq<seq<Byte>>)
    ensures Visible(MessageTape(Merged(parts))) == Visible(MessageTape(parts))
  {
    MessageVisible(parts);
    MessageVisible(Merged(parts));
  }

  predicate NoneEmpty(parts: seq<seq<Byte>>) {
    forall i :: 0 <= i < |parts| ==> parts[i] != []
  }

  lemma {:induction false} EmptyParts(parts: seq<seq<Byte>>)
    ensures Sum(EmptyPart, parts) == 0 <==> NoneEmpty(parts)
    ensures Sum(EmptyPart, parts) <= |parts|
    ensures Sum(EmptyPart, parts) == |parts| <==> Join(parts) == []
  {
    if parts != [] {
      EmptyParts(parts[1..]);
      assert Join(parts) == parts[0] + Join(parts[1..]);
    }
  }

  lemma {:induction false} NoUnseen(t: Tape)
    requires Sum(Unseen, t) == 0
    ensures Visible(t) == t
  {
    if t != [] {
      NoUnseen(t[1..]);
    }
  }

  /** It is the very same message if and only if no one of several parts is empty. */
  lemma MergedIsEqualExactly(parts: seq<seq<Byte>>)
    ensures MessageTape(Merged(parts)) == MessageTape(parts) <==> |parts| <= 1 || NoneEmpty(parts)
  {
    hide MessageTape;
    MessageVisible(parts);
    MessageVisible(Merged(parts));
    EmptyParts(parts);
    if |parts| == 1 {
      assert Merged(parts) == parts;
    } else if |parts| > 1 {
      assert Sum(EmptyPart, Merged(parts)) == EmptyPart(Join(parts));
      if Sum(EmptyPart, parts) == 0 {
        NoUnseen(MessageTape(parts));
        NoUnseen(MessageTape(Merged(parts)));
      }
    }
  }
}

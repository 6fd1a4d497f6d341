/** The tests' frame writer (`frame`) and frame walkers (`goaway_stream_ids`, `data_frame_lengths`), and a reader
    that is fed a wire in slices. Frame layout: section 4.1 of RFC 9113.
 */
module FrameCodec {
  import opened Basics
  import opened Folds

  /** An octet as a number, for the arithmetic of the length field. */
  type Octet = b: nat | b < 256
  type Bytes = seq<Octet>

  const DATA: Octet := 0x0
  const GOAWAY: Octet := 0x7
  const HEADER := 9
  const MAX_LENGTH := 0x100_0000

  /** `int.from_bytes(data, "big")` */
  function FromBytes(data: Bytes): nat {
    if data == [] then 0 else 256 * FromBytes(data[..|data| - 1]) + data[|data| - 1]
  }

  /** `n.to_bytes(3, "big")` */
  function ToBytes3(n: nat): Bytes
    requires n < MAX_LENGTH
  {
    [n / 65536, n / 256 % 256, n % 256]
  }

  /** None is the exception of `to_bytes` or `bytes` for a value that does not fit. */
  function Frame(kind: int, flags: int, payload: Bytes): Option<Bytes> {
    if |payload| >= MAX_LENGTH || !(0 <= kind < 256) || !(0 <= flags < 256) then None
    else Some(ToBytes3(|payload|) + [kind, flags, 0, 0, 0, 0] + payload)
  }

  lemma LengthRoundTrip(n: nat)
    requires n < MAX_LENGTH
    ensures FromBytes(ToBytes3(n)) == n
  {
    var b := ToBytes3(n);
    assert b[..2] == [b[0], b[1]] && b[..2][..1] == [b[0]] && b[..2][..1][..0] == [];
    assert FromBytes(b) == 256 * FromBytes(b[..2]) + b[2];
    assert FromBytes(b[..2]) == 256 * FromBytes(b[..2][..1]) + b[1];
    assert FromBytes(b[..2][..1]) == b[0];
  }

  /** Network byte order, for the widths that frames use. */
  lemma BigEndian(b: Bytes)
    ensures |b| == 1 ==> FromBytes(b) == b[0]
    ensures |b| == 3 ==> FromBytes(b) == 65536 * (b[0] as int) + 256 * (b[1] as int) + b[2] as int
    ensures |b| == 4 ==>
              FromBytes(b) == 16777216 * (b[0] as int) + 65536 * (b[1] as int) + 256 * (b[2] as int) + b[3] as int
  {
    if |b| == 1 {
      assert b[..0] == [];
    } else if |b| == 3 || |b| == 4 {
      var c, d := b[..|b| - 1], b[..|b| - 2];
      assert c[..|c| - 1] == d;
      assert FromBytes(b) == 256 * FromBytes(c) + b[|b| - 1] && FromBytes(c) == 256 * FromBytes(d) + c[|c| - 1];
      var f := d[..|d| - 1];
      assert FromBytes(d) == 256 * FromBytes(f) + d[|d| - 1];
      if |b| == 3 {
        assert f == [];
      } else {
        assert f[..0] == [] && FromBytes(f) == f[0];
      }
    }
  }

  /** Where everything stands in a written frame: length, type, flags, stream 0, payload. It is written exactly when
      the payload length fits in three octets and type and flags in one. */
  lemma FrameLayout(kind: int, flags: int, payload: Bytes)
    ensures Frame(kind, flags, payload).Some? <==> |payload| < 0x100_0000 && 0 <= kind <= 255 && 0 <= flags <= 255
    ensures var f := Frame(kind, flags, payload);
            f.Some? ==>
              && |f.value| == 9 + |payload| && f.value[9..] == payload
              && 65536 * (f.value[0] as int) + 256 * (f.value[1] as int) + f.value[2] as int == |payload|
              && f.value[3] == kind && f.value[4] == flags
              && f.value[5] == f.value[6] == f.value[7] == f.value[8] == 0
  {
    if Frame(kind, flags, payload).Some? {
      LengthRoundTrip(|payload|);
      BigEndian(ToBytes3(|payload|));
    }
  }

  // ---------------------------------------------------------------- walking a wire

  /** A Python slice `data[lo:hi]`, which never fails. */
  function Slice(data: Bytes, lo: nat, hi: nat): Bytes
    requires lo <= hi
  {
    if lo >= |data| then [] else if hi >= |data| then data[lo..] else data[lo..hi]
  }

  function LengthAt(data: Bytes): nat { FromBytes(Slice(data, 0, 3)) }

  /** What a walker looks at in one frame; `lead` are the first octets after the header. */
  datatype Item = Item(kind: Octet, length: nat, lead: Bytes)

  function Head(data: Bytes): Item
    requires |data| > 3
  {
    Item(data[3], LengthAt(data), Slice(data, 9, 13))
  }

  /** The frames found by consuming the wire from the front. None is the IndexError of a wire that
      breaks off before a type octet; a payload that breaks off is not noticed. */
  function Walk(data: Bytes): Option<seq<Item>>
    decreases |data|
  {
    if data == [] then Some([])
    else if |data| <= 3 then None
    else
      var rest := Walk(Slice(data, HEADER + LengthAt(data), HEADER + LengthAt(data) + |data|));
      if rest.None? then None else Some([Head(data)] + rest.value)
  }

  /** The same frames, found by advancing an offset. */
  function WalkFrom(wire: Bytes, offset: nat): Option<seq<Item>>
    decreases |wire| - offset
  {
    if offset >= |wire| then Some([])
    else if offset + 3 >= |wire| then None
    else
      var length := FromBytes(Slice(wire, offset, offset + 3));
      var rest := WalkFrom(wire, offset + HEADER + length);
      if rest.None? then None
      else Some([Item(wire[offset + 3], length, Slice(wire, offset + 9, offset + 13))] + rest.value)
  }

  lemma SliceOfSuffix(wire: Bytes, offset: nat, lo: nat, hi: nat)
    requires offset <= |wire| && lo <= hi
    ensures Slice(wire[offset..], lo, hi) == Slice(wire, offset + lo, offset + hi)
  {
  }

  /** One step of either walk. */
  lemma StepsAgree(wire: Bytes, offset: nat)
    requires offset + 3 < |wire|
    ensures var data := wire[offset..];
            && Head(data) == Item(wire[offset + 3], FromBytes(Slice(wire, offset, offset + 3)),
                                  Slice(wire, offset + 9, offset + 13))
            && Slice(data, HEADER + LengthAt(data), HEADER + LengthAt(data) + |data|)
               == if offset + HEADER + LengthAt(data) <= |wire| then wire[offset + HEADER + LengthAt(data)..] else []
  {
    hide FromBytes;
    SliceOfSuffix(wire, offset, 0, 3);
    SliceOfSuffix(wire, offset, 9, 13);
  }

  /** Both ways of walking visit the same frame boundaries and fail on the same wires, well-formed or not. */
  lemma {:induction false} WalksAgree(wire: Bytes, offset: nat)
    requires offset <= |wire|
    ensures WalkFrom(wire, offset) == Walk(wire[offset..])
    decreases |wire| - offset
  {
    hide FromBytes, Slice;
    if offset + 3 < |wire| {
      StepsAgree(wire, offset);
      var next := offset + HEADER + LengthAt(wire[offset..]);
      if next <= |wire| {
        WalksAgree(wire, next);
      }
    }
  }

  function DataLengths(items: seq<Item>): seq<nat> {
    if items == [] then []
    else (if items[0].kind == DATA then [items[0].length] else []) + DataLengths(items[1..])
  }

  function GoawayIds(items: seq<Item>): seq<nat> {
    if items == [] then []
    else (if items[0].kind == GOAWAY then [FromBytes(items[0].lead)] else []) + GoawayIds(items[1..])
  }

  function Prepend<T>(first: seq<T>, rest: Option<seq<T>>): Option<seq<T>> {
    if rest.None? then None else Some(first + rest.value)
  }

  lemma PrependTwice<T>(a: seq<T>, b: seq<T>, rest: Option<seq<T>>)
    ensures Prepend(a, Prepend(b, rest)) == Prepend(a + b, rest)
    ensures Prepend([], rest) == rest
  {
    if rest.Some? {
      assert a + (b + rest.value) == (a + b) + rest.value;
      assert [] + rest.value == rest.value;
    }
  }

  /** What the walkers return for the frames of a walk. */
  function LengthsOf(walk: Option<seq<Item>>): Option<seq<nat>> {
    if walk.None? then None else Some(DataLengths(walk.value))
  }

  function IdsOf(walk: Option<seq<Item>>): Option<seq<nat>> {
    if walk.None? then None else Some(GoawayIds(walk.value))
  }

  lemma FirstItem(item: Item, rest: Option<seq<Item>>)
    ensures LengthsOf(Prepend([item], rest))
         == Prepend(if item.kind == DATA then [item.length] else [], LengthsOf(rest))
    ensures IdsOf(Prepend([item], rest))
         == Prepend(if item.kind == GOAWAY then [FromBytes(item.lead)] else [], IdsOf(rest))
  {
    if rest.Some? {
      assert ([item] + rest.value)[1..] == rest.value;
    }
  }

  method DataFrameLengths(wire: Bytes) returns (lengths: Option<seq<nat>>)
    ensures lengths == LengthsOf(Walk(wire))
  {
    hide FromBytes, Slice, Walk, LengthsOf, Prepend;
    var found: seq<nat> := [];
    var offset := 0;
    WalksAgree(wire, 0);
    assert wire[0..] == wire;
    PrependTwice([], [], LengthsOf(WalkFrom(wire, 0)));
    while offset < |wire|
      invariant LengthsOf(Walk(wire)) == Prepend(found, LengthsOf(WalkFrom(wire, offset)))
      decreases |wire| - offset
    {
      var length := FromBytes(Slice(wire, offset, offset + 3));
      if offset + 3 >= |wire| {
        NothingFound(found);
        return None;
      }
      var more := if wire[offset + 3] == DATA then [length] else [];
      StepFrom(wire, offset);
      PrependTwice(found, more, LengthsOf(WalkFrom(wire, offset + HEADER + length)));
      if wire[offset + 3] == DATA {
        found := found + [length];
      } else {
        assert found + [] == found;
      }
      offset := offset + HEADER + length;
    }
    AllFound(found);
    lengths := Some(found);
  }

  lemma NothingFound(found: seq<nat>)
    ensures Prepend(found, LengthsOf(None)) == None && Prepend(found, IdsOf(None)) == None
  {
  }

  /** Nothing is left, or too little for a type octet. */
  lemma WalkEnds(data: Bytes)
    requires |data| <= 3
    ensures Walk(data) == if data == [] then Some([]) else None
  {
  }

  lemma AllFound(found: seq<nat>)
    ensures Prepend(found, LengthsOf(Some([]))) == Some(found) && Prepend(found, IdsOf(Some([]))) == Some(found)
  {
    assert found + [] == found;
  }

  lemma StepFrom(wire: Bytes, offset: nat)
    requires offset + 3 < |wire|
    ensures var length := FromBytes(Slice(wire, offset, offset + 3));
            LengthsOf(WalkFrom(wire, offset))
            == Prepend(if wire[offset + 3] == DATA then [length] else [],
                       LengthsOf(WalkFrom(wire, offset + HEADER + length)))
  {
    hide FromBytes, Slice;
    var length := FromBytes(Slice(wire, offset, offset + 3));
    FirstItem(Item(wire[offset + 3], length, Slice(wire, offset + 9, offset + 13)),
              WalkFrom(wire, offset + HEADER + length));
  }

  lemma StepOf(data: Bytes)
    requires |data| > 3
    ensures IdsOf(Walk(data))
            == Prepend(if data[3] == GOAWAY then [FromBytes(Slice(data, 9, 13))] else [],
                       IdsOf(Walk(Slice(data, HEADER + LengthAt(data), HEADER + LengthAt(data) + |data|))))
  {
    hide FromBytes, Slice;
    FirstItem(Head(data), Walk(Slice(data, HEADER + LengthAt(data), HEADER + LengthAt(data) + |data|)));
  }

  method GoawayStreamIds(wire: Bytes) returns (ids: Option<seq<nat>>)
    ensures ids == IdsOf(Walk(wire))
  {
    hide FromBytes, IdsOf, Prepend, Walk;
    var found: seq<nat> := [];
    var data := wire;
    PrependTwice([], [], IdsOf(Walk(data)));
    while data != []
      invariant IdsOf(Walk(wire)) == Prepend(found, IdsOf(Walk(data)))
      decreases |data|
    {
      var length := FromBytes(Slice(data, 0, 3));
      if |data| <= 3 {
        WalkEnds(data);
        NothingFound(found);
        return None;
      }
      var more := if data[3] == GOAWAY then [FromBytes(Slice(data, 9, 13))] else [];
      StepOf(data);
      PrependTwice(found, more, IdsOf(Walk(Slice(data, HEADER + length, HEADER + length + |data|))));
      if data[3] == GOAWAY {
        found := found + [FromBytes(Slice(data, 9, 13))];
      } else {
        assert found + [] == found;
      }
      data := Slice(data, HEADER + length, HEADER + length + |data|);
    }
    WalkEnds(data);
    AllFound(found);
    ids := Some(found);
  }

  // ---------------------------------------------------------------- round trip

  datatype Spec = Spec(kind: Octet, flags: Octet, payload: Bytes)

  predicate Fits(f: Spec) { |f.payload| < MAX_LENGTH }

  function Encode(f: Spec): Bytes
    requires Fits(f)
  {
    Frame(f.kind as int, f.flags as int, f.payload).value
  }

  function Wire(frames: seq<Spec>): Bytes
    requires forall f <- frames :: Fits(f)
  {
    if frames == [] then [] else Encode(frames[0]) + Wire(frames[1..])
  }

  lemma EncodedHead(f: Spec, tail: Bytes)
    requires Fits(f)
    ensures var data := Encode(f) + tail;
            && |data| > 3 && Head(data) == Item(f.kind, |f.payload|, Slice(f.payload + tail, 0, 4))
            && data[HEADER + |f.payload|..] == tail && data[..HEADER + |f.payload|] == Encode(f)
  {
    var data := Encode(f) + tail;
    LengthRoundTrip(|f.payload|);
    assert Slice(data, 0, 3) == ToBytes3(|f.payload|);
    assert data[HEADER..] == f.payload + tail;
    SliceOfSuffix(data, HEADER, 0, 4);
  }

  /** Walking a frame that is followed by anything. */
  lemma WalkOneFrame(f: Spec, tail: Bytes)
    requires Fits(f)
    ensures Walk(Encode(f) + tail) == Prepend([Item(f.kind, |f.payload|, Slice(f.payload + tail, 0, 4))], Walk(tail))
  {
    hide FromBytes;
    var data := Encode(f) + tail;
    EncodedHead(f, tail);
    assert Slice(data, HEADER + |f.payload|, HEADER + |f.payload| + |data|) == tail;
  }

  function OneLength(f: Spec): seq<nat> { if f.kind == DATA then [|f.payload|] else [] }

  function OneId(f: Spec): seq<nat> { if f.kind == GOAWAY then [FromBytes(Slice(f.payload, 0, 4))] else [] }

  function Lengths(frames: seq<Spec>): seq<nat> {
    if frames == [] then [] else OneLength(frames[0]) + Lengths(frames[1..])
  }

  function Ids(frames: seq<Spec>): seq<nat> {
    if frames == [] then [] else OneId(frames[0]) + Ids(frames[1..])
  }

  predicate GoodFrames(frames: seq<Spec>) {
    forall f <- frames :: Fits(f) && (f.kind == GOAWAY ==> |f.payload| >= 4)
  }

  lemma OneFrameReadsBack(f: Spec, rest: Bytes)
    requires Fits(f) && (f.kind == GOAWAY ==> |f.payload| >= 4)
    ensures LengthsOf(Walk(Encode(f) + rest)) == Prepend(OneLength(f), LengthsOf(Walk(rest)))
    ensures IdsOf(Walk(Encode(f) + rest)) == Prepend(OneId(f), IdsOf(Walk(rest)))
  {
    hide Walk, FromBytes, Encode, LengthsOf, IdsOf, Prepend;
    var item := Item(f.kind, |f.payload|, Slice(f.payload + rest, 0, 4));
    WalkOneFrame(f, rest);
    FirstItem(item, Walk(rest));
    assert f.kind == GOAWAY ==> Slice(f.payload + rest, 0, 4) == Slice(f.payload, 0, 4);
  }

  /** Round trip and distribution: on whole frames followed by any wire, the walkers report exactly the written
      DATA lengths and GOAWAY stream identifiers, and then whatever they report on the rest. */
  lemma {:induction false} WalkersReadBack(frames: seq<Spec>, tail: Bytes)
    requires GoodFrames(frames)
    ensures LengthsOf(Walk(Wire(frames) + tail)) == Prepend(Lengths(frames), LengthsOf(Walk(tail)))
    ensures IdsOf(Walk(Wire(frames) + tail)) == Prepend(Ids(frames), IdsOf(Walk(tail)))
    decreases |frames|
  {
    hide Walk, FromBytes, Encode, LengthsOf, IdsOf, Prepend, OneLength, OneId;
    if frames == [] {
      assert [] + tail == tail;
      PrependTwice([], [], LengthsOf(Walk(tail)));
      PrependTwice([], [], IdsOf(Walk(tail)));
    } else {
      var f, rest := frames[0], Wire(frames[1..]) + tail;
      WalkersReadBack(frames[1..], tail);
      assert Wire(frames) + tail == Encode(f) + rest;
      OneFrameReadsBack(f, rest);
      PrependTwice(OneLength(f), Lengths(frames[1..]), LengthsOf(Walk(tail)));
      PrependTwice(OneId(f), Ids(frames[1..]), IdsOf(Walk(tail)));
    }
  }

  /** GOAWAY frames as a peer writes them: the four octets of a stream identifier, and more. */
  function Goaway(n: nat, more: Bytes): Bytes
    requires n < 0x1_0000_0000
  {
    [n / 16777216, n / 65536 % 256, n / 256 % 256, n % 256] + more
  }

  lemma GoawayOctets(n: nat)
    requires n < 0x1_0000_0000
    ensures 16777216 * (n / 16777216) + 65536 * (n / 65536 % 256) + 256 * (n / 256 % 256) + n % 256 == n
  {
    assert n / 65536 == n / 256 / 256 && n / 16777216 == n / 65536 / 256;
  }

  /** A written identifier is read back, whatever follows it in the payload and behind the frame. */
  lemma GoawayReadsBack(n: nat, flags: nat, more: Bytes, tail: Bytes)
    requires n < 0x1_0000_0000 && flags <= 255 && 4 + |more| < 0x100_0000
    ensures var wire := Frame(0x7, flags, Goaway(n, more)).value + tail;
            IdsOf(Walk(wire)) == Prepend([n], IdsOf(Walk(tail)))
  {
    hide FromBytes, Walk, IdsOf, Prepend;
    var spec := Spec(0x7, flags, Goaway(n, more));
    OneFrameReadsBack(spec, tail);
    var octets := Slice(spec.payload, 0, 4);
    assert octets == Goaway(n, more)[..4];
    BigEndian(octets);
    GoawayOctets(n);
    assert OneId(spec) == [n] && Encode(spec) == Frame(0x7, flags, Goaway(n, more)).value;
  }

  /** So is the length of a DATA frame, type 0. */
  lemma DataReadsBack(flags: nat, payload: Bytes, tail: Bytes)
    requires flags <= 255 && |payload| < 0x100_0000
    ensures var wire := Frame(0x0, flags, payload).value + tail;
            LengthsOf(Walk(wire)) == Prepend<nat>([|payload|], LengthsOf(Walk(tail)))
  {
    hide FromBytes, Walk, LengthsOf, IdsOf, Prepend;
    var spec := Spec(0x0, flags, payload);
    OneFrameReadsBack(spec, tail);
    assert OneLength(spec) == [|payload|] && Encode(spec) == Frame(0x0, flags, payload).value;
  }

  /** Frames of any other type are passed over. */
  lemma OthersAreSkipped(kind: nat, flags: nat, payload: Bytes, tail: Bytes)
    requires kind <= 255 && flags <= 255 && |payload| < 0x100_0000
    ensures var wire := Frame(kind, flags, payload).value + tail;
            && (kind != 0x0 ==> LengthsOf(Walk(wire)) == LengthsOf(Walk(tail)))
            && (kind != 0x7 ==> IdsOf(Walk(wire)) == IdsOf(Walk(tail)))
  {
    hide FromBytes, Walk, LengthsOf, IdsOf, Prepend;
    var f := Spec(kind, flags, payload);
    var item := Item(f.kind, |f.payload|, Slice(f.payload + tail, 0, 4));
    WalkOneFrame(f, tail);
    FirstItem(item, Walk(tail));
    PrependTwice([], [], LengthsOf(Walk(tail)));
    PrependTwice([], [], IdsOf(Walk(tail)));
  }

  // ---------------------------------------------------------------- reading in slices

  /** `[wire[o:o + size] for o in range(0, len(wire), size)]` */
  function Slices(wire: Bytes, size: nat): seq<Bytes>
    requires size > 0
    decreases |wire|
  {
    if wire == [] then []
    else if |wire| <= size then [wire]
    else [wire[..size]] + Slices(wire[size..], size)
  }

  lemma {:induction false} SlicesFit(wire: Bytes, size: nat)
    requires size > 0
    ensures forall s <- Slices(wire, size) :: 0 < |s| <= size
    decreases |wire|
  {
    hide Join;
    if |wire| > size {
      SlicesFit(wire[size..], size);
      assert Slices(wire, size) == [wire[..size]] + Slices(wire[size..], size);
    }
  }

  /** The slices tile the wire. */
  lemma {:induction false} SlicesTile(wire: Bytes, size: nat)
    requires size > 0
    ensures Join(Slices(wire, size)) == wire
    ensures forall s <- Slices(wire, size) :: 0 < |s| <= size
    decreases |wire|
  {
    SlicesFit(wire, size);
    if |wire| > size {
      var more := Slices(wire[size..], size);
      SlicesTile(wire[size..], size);
      JoinOneMore(wire[..size], more);
    } else if wire != [] {
      JoinOneMore(wire, []);
    }
  }

  /** Every slice but the last has exactly the read size. */
  lemma {:induction false} SlicesAreFull(wire: Bytes, size: nat)
    requires size > 0
    ensures forall i :: 0 <= i < |Slices(wire, size)| - 1 ==> |Slices(wire, size)[i]| == size
    decreases |wire|
  {
    if |wire| > size {
      SlicesAreFull(wire[size..], size);
      assert Slices(wire, size) == [wire[..size]] + Slices(wire[size..], size);
    }
  }

  datatype Parsed = Parsed(frames: seq<Bytes>, rest: Bytes)

  predicate Complete(data: Bytes) {
    |data| >= HEADER && |data| >= HEADER + LengthAt(data)
  }

  /** The whole frames at the front of a buffer, and the partial one behind them. */
  function Parse(data: Bytes): Parsed
    decreases |data|
  {
    if !Complete(data) then Parsed([], data)
    else
      var n := HEADER + LengthAt(data);
      var r := Parse(data[n..]);
      r.(frames := [data[..n]] + r.frames)
  }

  lemma StillComplete(data: Bytes, more: Bytes)
    requires Complete(data)
    ensures var n := HEADER + LengthAt(data);
            && Complete(data + more) && LengthAt(data + more) == LengthAt(data)
            && (data + more)[..n] == data[..n] && (data + more)[n..] == data[n..] + more
  {
    hide FromBytes;
    assert Slice(data + more, 0, 3) == Slice(data, 0, 3);
  }

  /** Bytes that arrive later do not change what is already complete. */
  lemma {:induction false} ParseMore(data: Bytes, more: Bytes)
    ensures var r := Parse(data);
            Parse(data + more) == Parsed(r.frames + Parse(r.rest + more).frames, Parse(r.rest + more).rest)
    decreases |data|
  {
    hide LengthAt;
    if Complete(data) {
      var n := HEADER + LengthAt(data);
      StillComplete(data, more);
      ParseMore(data[n..], more);
      var r, tail := Parse(data[n..]), Parse(Parse(data[n..]).rest + more);
      assert [data[..n]] + (r.frames + tail.frames) == ([data[..n]] + r.frames) + tail.frames;
    } else {
      assert [] + Parse(data + more).frames == Parse(data + more).frames;
    }
  }

  /** A reader that keeps the unfinished frame between reads: the frames each read completes. */
  datatype ReadResult = ReadResult(batches: seq<seq<Bytes>>, rest: Bytes)

  function ReadAll(buffer: Bytes, parts: seq<Bytes>): ReadResult
    decreases |parts|
  {
    if parts == [] then ReadResult([], buffer)
    else
      var now := Parse(buffer + parts[0]);
      var later := ReadAll(now.rest, parts[1..]);
      later.(batches := [now.frames] + later.batches)
  }

  lemma {:induction false} ReadsAreOneParse(buffer: Bytes, parts: seq<Bytes>)
    requires !Complete(buffer)
    ensures var r := ReadAll(buffer, parts);
            Parse(buffer + Join(parts)) == Parsed(Join(r.batches), r.rest)
    decreases |parts|
  {
    hide Complete, Parse;
    if parts == [] {
      assert buffer + [] == buffer;
      PartialIsKept(buffer);
    } else {
      var now := Parse(buffer + parts[0]);
      RestIsPartial(buffer + parts[0]);
      ReadsAreOneParse(now.rest, parts[1..]);
      ParseMore(buffer + parts[0], Join(parts[1..]));
      assert buffer + Join(parts) == (buffer + parts[0]) + Join(parts[1..]);
    }
  }

  lemma PartialIsKept(data: Bytes)
    requires !Complete(data)
    ensures Parse(data) == Parsed([], data)
  {
  }

  lemma {:induction false} RestIsPartial(data: Bytes)
    ensures Parse(data).rest == data || |Parse(data).rest| < |data|
    ensures !Complete(Parse(data).rest)
    decreases |data|
  {
    if Complete(data) {
      RestIsPartial(data[HEADER + LengthAt(data)..]);
    }
  }

  // ---------------------------------------------------------------- any wire of whole frames

  lemma WalkStep(data: Bytes)
    requires Complete(data)
    ensures Walk(data) == Prepend([Head(data)], Walk(data[HEADER + LengthAt(data)..]))
  {
    hide FromBytes;
    assert Slice(data, HEADER + LengthAt(data), HEADER + LengthAt(data) + |data|) == data[HEADER + LengthAt(data)..];
  }

  /** Every GOAWAY frame has the four octets of its stream identifier. */
  predicate GoawayIsWhole(frame: Bytes) {
    |frame| > 3 && (frame[3] == GOAWAY ==> |frame| >= HEADER + 4)
  }

  predicate GoawaysAreWhole(frames: seq<Bytes>) {
    forall i :: 0 <= i < |frames| ==> GoawayIsWhole(frames[i])
  }

  lemma GoawaysFirst(first: Bytes, rest: seq<Bytes>)
    requires GoawaysAreWhole([first] + rest)
    ensures GoawayIsWhole(first) && GoawaysAreWhole(rest)
  {
    var all := [first] + rest;
    assert GoawayIsWhole(all[0]);
    forall i | 0 <= i < |rest| ensures GoawayIsWhole(rest[i]) {
      assert GoawayIsWhole(all[i + 1]);
    }
  }

  /** The first frame of a wire, also when more follows the wire. */
  lemma HeadWithMore(wire: Bytes, tail: Bytes)
    requires Complete(wire)
    ensures var f, all := Head(wire), Head(wire + tail);
            && f.kind == all.kind == wire[3] && f.length == all.length == LengthAt(wire)
            && (f.length >= 4 ==> all.lead == f.lead)
  {
    hide FromBytes;
    StillComplete(wire, tail);
  }

  lemma FirstOfFrames(wire: Bytes)
    requires Complete(wire) && Parse(wire).rest == []
    ensures Parse(wire[HEADER + LengthAt(wire)..]).rest == []
    ensures GoawaysAreWhole(Parse(wire).frames) ==>
              && GoawaysAreWhole(Parse(wire[HEADER + LengthAt(wire)..]).frames)
              && (wire[3] == GOAWAY ==> LengthAt(wire) >= 4)
  {
    hide FromBytes;
    var n, r := HEADER + LengthAt(wire), Parse(wire[HEADER + LengthAt(wire)..]);
    assert Parse(wire).frames == [wire[..n]] + r.frames;
    if GoawaysAreWhole(Parse(wire).frames) {
      GoawaysFirst(wire[..n], r.frames);
      assert wire[..n][3] == wire[3];
    }
  }

  lemma NothingWalked()
    ensures Walk([]) == Some([]) && LengthsOf(Walk([])) == Some([]) && IdsOf(Walk([])) == Some([])
  {
  }

  /** Distribution: both walkers treat a wire of whole frames, on any stream and whoever wrote it, and what follows it
      separately; for the identifiers no GOAWAY frame may be too short to hold one. */
  lemma {:induction false} WalkersDistribute(wire: Bytes, tail: Bytes)
    requires Parse(wire).rest == []
    ensures LengthsOf(Walk(wire)).Some? && IdsOf(Walk(wire)).Some?
    ensures LengthsOf(Walk(wire + tail)) == Prepend(LengthsOf(Walk(wire)).value, LengthsOf(Walk(tail)))
    ensures GoawaysAreWhole(Parse(wire).frames) ==>
              IdsOf(Walk(wire + tail)) == Prepend(IdsOf(Walk(wire)).value, IdsOf(Walk(tail)))
    decreases |wire|
  {
    hide FromBytes, LengthAt, Walk, LengthsOf, IdsOf, Slice, Head, Parse, GoawaysAreWhole;
    NothingWalked();
    if wire == [] {
      assert [] + tail == tail;
      PrependTwice([], [], LengthsOf(Walk(tail)));
      PrependTwice([], [], IdsOf(Walk(tail)));
    } else {
      WholeIsComplete(wire);
      var a, b, more := Head(wire), Head(wire + tail), wire[HEADER + LengthAt(wire)..];
      StillComplete(wire, tail);
      HeadWithMore(wire, tail);
      WalkStep(wire);
      WalkStep(wire + tail);
      FirstOfFrames(wire);
      WalkersDistribute(more, tail);
      FirstItem(a, Walk(more));
      FirstItem(b, Walk(more + tail));
      PrependTwice(if a.kind == DATA then [a.length] else [], LengthsOf(Walk(more)).value, LengthsOf(Walk(tail)));
      PrependTwice(if a.kind == GOAWAY then [FromBytes(a.lead)] else [], IdsOf(Walk(more)).value, IdsOf(Walk(tail)));
    }
  }

  /** A wire breaks off with an error exactly when one to three octets are left behind its last whole frame; with more
      of an unfinished frame left, that frame is still reported. */
  lemma {:induction false} WalkFailsExactly(wire: Bytes)
    ensures Walk(wire).None? <==> 0 < |Parse(wire).rest| <= 3
    decreases |wire|
  {
    hide FromBytes;
    if Complete(wire) {
      WalkStep(wire);
      WalkFailsExactly(wire[HEADER + LengthAt(wire)..]);
    } else if |wire| > 3 {
      assert Slice(wire, HEADER + LengthAt(wire), HEADER + LengthAt(wire) + |wire|) == [];
      NothingWalked();
    }
  }

  lemma WholeIsComplete(wire: Bytes)
    requires wire != [] && Parse(wire).rest == []
    ensures Complete(wire)
  {
  }

  function Encoded(frames: seq<Spec>): seq<Bytes>
    requires forall f <- frames :: Fits(f)
  {
    if frames == [] then [] else [Encode(frames[0])] + Encoded(frames[1..])
  }

  lemma {:induction false} ParseReadsBack(frames: seq<Spec>)
    requires forall f <- frames :: Fits(f)
    ensures Parse(Wire(frames)) == Parsed(Encoded(frames), [])
    decreases |frames|
  {
    if frames != [] {
      EncodedHead(frames[0], Wire(frames[1..]));
      ParseReadsBack(frames[1..]);
    }
  }

  /** Read-size independence: for every slice size the reader recovers exactly the written frames, in order, in
      consecutive batches, and nothing is left over. */
  lemma ReadSizeDoesNotMatter(frames: seq<Spec>, size: nat)
    requires size > 0 && forall f <- frames :: Fits(f)
    ensures var r := ReadAll([], Slices(Wire(frames), size));
            Join(r.batches) == Encoded(frames) && r.rest == [] && |r.batches| == |Slices(Wire(frames), size)|
  {
    var parts := Slices(Wire(frames), size);
    SlicesTile(Wire(frames), size);
    ReadsAreOneParse([], parts);
    assert [] + Join(parts) == Join(parts);
    ParseReadsBack(frames);
    OneBatchPerRead([], parts);
  }

  lemma {:induction false} OneBatchPerRead(buffer: Bytes, parts: seq<Bytes>)
    ensures |ReadAll(buffer, parts).batches| == |parts|
    decreases |parts|
  {
    if parts != [] {
      OneBatchPerRead(Parse(buffer + parts[0]).rest, parts[1..]);
    }
  }
}

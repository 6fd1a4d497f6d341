/** The bounded upload of `manual_flow_control.py`: chunks of a body are submitted while nothing is queued, and the
    receiver returns credit only for what the application has consumed.

    The connection objects are a library; here they are a send queue with its window and a receive side whose
    credit stays put until it is transferred back.
 */
module Upload {
  import opened Basics
  import opened Folds

  type Bytes = seq<Byte>

  /** The client: `queue` is submitted and not sent, `window` what may still be sent, `ended` whether the body ends
      with the queue. */
  class Client {
    var queue: Bytes
    var window: nat
    var ended: bool

    constructor (window: nat)
      ensures queue == [] && this.window == window && !ended
    {
      queue, this.window, ended := [], window, false;
    }

    method SendData(data: Bytes, end: bool)
      requires !ended
      modifies this`queue, this`ended
      ensures queue == old(queue) + data && ended == end
    {
      queue, ended := queue + data, end;
    }
  }

  /** The server in manual mode: DATA events not taken yet, consumed bytes whose credit is not returned yet, and
      whether END_STREAM has arrived. */
  class Server {
    const threshold: nat
    var events: seq<Bytes>
    var credit: nat
    var ended: bool

    constructor (threshold: nat)
      requires threshold > 0
      ensures events == [] && credit == 0 && this.threshold == threshold && !ended
    {
      this.threshold := threshold;
      events, credit, ended := [], 0, false;
    }

    method Events() returns (taken: seq<Bytes>)
      modifies this`events
      ensures taken == old(events) && events == []
    {
      taken := events;
      events := [];
    }

    method ConsumeReceivedData(n: nat)
      modifies this`credit
      ensures credit == old(credit) + n
    {
      credit := credit + n;
    }
  }

  /** `transfer(client, server)`: all that the window allows, in some number of DATA frames, the last of the body
      with END_STREAM. */
  method TransferData(client: Client, server: Server)
    modifies client`queue, client`window, server`events, server`ended
    ensures server.ended <==> old(server.ended) || (client.ended && client.queue == [])
    ensures var sent := Min(|old(client.queue)|, old(client.window));
            && client.queue == old(client.queue)[sent..] && client.window == old(client.window) - sent
            && Join(server.events) == Join(old(server.events)) + old(client.queue)[..sent]
  {
    var sent := Min(|client.queue|, client.window);
    var data := client.queue[..sent];
    assert Join([data]) == data + Join([data][1..]);
    var frames :| Join(frames) == data;
    JoinConcat(server.events, frames);
    server.events := server.events + frames;
    client.queue, client.window := client.queue[sent..], client.window - sent;
    server.ended := server.ended || (client.ended && client.queue == []);
  }

  /** `transfer(server, client)`: the credit the library lets go, holding back less than its threshold. */
  method TransferCredit(server: Server, client: Client) returns (ghost released: nat)
    requires server.threshold > 0
    modifies server`credit, client`window
    ensures released <= old(server.credit) && old(server.credit) - released < server.threshold
    ensures server.credit == old(server.credit) - released && client.window == old(client.window) + released
  {
    var n: nat :| n <= server.credit && server.credit - n < server.threshold;
    released := n;
    server.credit := server.credit - n;
    client.window := client.window + n;
  }

  /** `consume_available_data`: every DATA event is taken once and exactly its bytes are released. */
  method ConsumeAvailableData(server: Server) returns (consumed: nat)
    modifies server`events, server`credit
    ensures consumed == |Join(old(server.events))|
    ensures server.events == [] && server.credit == old(server.credit) + consumed
  {
    consumed := 0;
    var taken := server.Events();
    for i := 0 to |taken|
      invariant consumed == Sum(Length, taken[..i]) && server.credit == old(server.credit) + consumed
      invariant server.events == []
    {
      SumConcat(Length, taken[..i], [taken[i]]);
      assert taken[..i] + [taken[i]] == taken[..i + 1];
      consumed := consumed + |taken[i]|;
      server.ConsumeReceivedData(|taken[i]|);
    }
    assert taken[..|taken|] == taken;
    JoinLength(taken);
  }

  // ---------------------------------------------------------------- the arithmetic of the first loop

  /** What the first loop submits: whole chunks until one of them does not fit the window. */
  function Submitted(n: nat, chunk: nat, window: nat): nat
    requires chunk > 0
  {
    Min(n, (window / chunk + 1) * chunk)
  }

  /** After `k` chunks of which all but the last fitted the window. */
  predicate Chunked(n: nat, chunk: nat, window: nat, k: nat, offset: nat) {
    && offset == Min(n, k * chunk)
    && (k > 0 ==> (k - 1) * chunk < n && (k - 1) * chunk <= window)
  }

  lemma ChunkOneMore(n: nat, chunk: nat, window: nat, k: nat, offset: nat)
    requires chunk > 0 && Chunked(n, chunk, window, k, offset) && offset < n && offset <= window
    ensures Chunked(n, chunk, window, k + 1, Min(offset + chunk, n))
    ensures offset == k * chunk
  {
    assert (k + 1) * chunk == k * chunk + chunk;
  }

  lemma NoChunkYet(n: nat, chunk: nat, window: nat)
    ensures Chunked(n, chunk, window, 0, 0)
  {
  }

  lemma Multiples(a: int, b: int, chunk: nat)
    ensures a <= b ==> a * chunk <= b * chunk
  {
  }

  lemma QuotientBetween(window: nat, chunk: nat, k: nat)
    requires chunk > 0 && k > 0 && (k - 1) * chunk <= window < k * chunk
    ensures window / chunk == k - 1
  {
    var q := window / chunk;
    assert window == q * chunk + window % chunk;
    assert (q + 1) * chunk == q * chunk + chunk;
    Multiples(q + 1, k - 1, chunk);
    Multiples(k, q, chunk);
  }

  lemma BeyondWindow(window: nat, chunk: nat)
    requires chunk > 0
    ensures window < (window / chunk + 1) * chunk
  {
    assert window == window / chunk * chunk + window % chunk;
    assert (window / chunk + 1) * chunk == window / chunk * chunk + chunk;
  }

  lemma LoopSubmits(n: nat, chunk: nat, window: nat, k: nat, offset: nat)
    requires chunk > 0 && Chunked(n, chunk, window, k, offset) && (offset == n || offset > window)
    ensures offset == Submitted(n, chunk, window)
  {
    BeyondWindow(window, chunk);
    if offset > window {
      QuotientBetween(window, chunk, k);
    }
  }

  /** One turn of the first loop: submit, transfer, consume. */
  method SubmitOne(client: Client, server: Server, data: Bytes, end: bool) returns (consumed: nat)
    requires client.queue == [] && server.events == [] && !client.ended && !server.ended
    modifies client`queue, client`window, client`ended, server`events, server`credit, server`ended
    ensures consumed == Min(|data|, old(client.window)) && client.window == old(client.window) - consumed
    ensures client.queue == data[consumed..] && client.ended == end
    ensures server.events == [] && server.credit == old(server.credit) + consumed
    ensures server.ended <==> end && client.queue == []
  {
    client.SendData(data, end);
    assert client.queue == data;
    TransferData(client, server);
    assert Join(server.events) == data[..Min(|data|, old(client.window))];
    consumed := ConsumeAvailableData(server);
  }

  /** The first loop. It stops with the whole body submitted, or with a tail of at most one chunk queued behind an
      exhausted window, and it submits the whole body exactly when `n <= (floor(window / chunk) + 1) * chunk`. */
  method SubmitChunks(client: Client, server: Server, body: Bytes, chunk: nat) returns (offset: nat, received: nat)
    requires chunk > 0 && client.queue == [] && server.events == [] && !client.ended && !server.ended
    modifies client`queue, client`window, client`ended, server`events, server`credit, server`ended
    ensures server.events == [] && server.credit == old(server.credit) + received
    ensures client.ended <==> 0 < offset == |body|
    ensures server.ended <==> 0 < received == |body|
    ensures received <= offset <= |body| && client.queue == body[received..offset] && |client.queue| <= chunk
    ensures received == Min(|body|, old(client.window)) && client.window == old(client.window) - received
    ensures offset == Submitted(|body|, chunk, old(client.window))
    ensures offset == |body| <==> |body| <= (old(client.window) / chunk + 1) * chunk
  {
    hide Chunked, Submitted, Join;
    offset, received := 0, 0;
    ghost var window, k := client.window, 0;
    NoChunkYet(|body|, chunk, window);
    while offset < |body| && |client.queue| == 0
      invariant received <= offset <= |body| && client.queue == body[received..offset]
      invariant received == Min(offset, window) && client.window == window - received
      invariant |client.queue| <= chunk && Chunked(|body|, chunk, window, k, offset)
      invariant server.events == [] && server.credit == old(server.credit) + received
      invariant client.ended <==> 0 < offset == |body|
      invariant server.ended <==> client.ended && client.queue == []
      decreases |body| - offset
    {
      ChunkOneMore(|body|, chunk, window, k, offset);
      var end := Min(offset + chunk, |body|);
      var consumed := SubmitOne(client, server, body[offset..end], end == |body|);
      assert body[offset..end][consumed..] == body[offset + consumed..end];
      offset, k := end, k + 1;
      received := received + consumed;
    }
    LoopSubmits(|body|, chunk, window, k, offset);
    SubmittedAll(|body|, chunk, window);
  }

  lemma SubmittedAll(n: nat, chunk: nat, window: nat)
    requires chunk > 0
    ensures Submitted(n, chunk, window) == n <==> n <= (window / chunk + 1) * chunk
  {
  }

  // ---------------------------------------------------------------- the second loop

  /** The queue after `rounds` turns of the second loop, which never returns credit. */
  function TailAfter(queued: nat, window: nat, rounds: nat): nat
    decreases rounds
  {
    if rounds == 0 then queued
    else TailAfter(queued - Min(queued, window), window - Min(queued, window), rounds - 1)
  }

  /** After one turn all that the window allows is sent, and nothing ever follows. */
  lemma {:induction false} TailSettles(queued: nat, window: nat, rounds: nat)
    ensures TailAfter(queued, window, rounds) == if rounds == 0 then queued else queued - Min(queued, window)
    decreases rounds
  {
    if rounds > 0 {
      var sent := Min(queued, window);
      TailSettles(queued - sent, window - sent, rounds - 1);
    }
  }

  /** The second loop ends, and after one turn at most, if and only if the credit it starts with covers the tail. */
  lemma TailDrainsExactlyWhenCovered(queued: nat, window: nat)
    ensures (exists rounds: nat :: TailAfter(queued, window, rounds) == 0) <==> queued <= window
    ensures queued <= window ==> TailAfter(queued, window, 1) == 0
  {
    TailSettles(queued, window, 1);
    forall rounds: nat ensures TailAfter(queued, window, rounds) == 0 ==> queued <= window {
      TailSettles(queued, window, rounds);
    }
  }

  /** The second loop, given up after `turns` turns if it is still running: what is queued then is the tail after so
      many turns, so it ends if and only if `TailAfter` reaches 0. */
  method DrainTurns(client: Client, server: Server, received0: nat, turns: nat) returns (received: nat)
    requires server.events == [] && (server.ended ==> client.ended && client.queue == [])
    modifies client`queue, client`window, server`events, server`credit, server`ended
    ensures |client.queue| == TailAfter(|old(client.queue)|, old(client.window), turns)
    ensures server.events == [] && received + |client.queue| == received0 + |old(client.queue)|
    ensures server.ended <==> old(server.ended)
                              || (turns > 0 && |old(client.queue)| > 0 && client.ended && client.queue == [])
  {
    received := received0;
    var k := 0;
    while |client.queue| > 0 && k < turns
      invariant k <= turns && server.events == []
      invariant TailAfter(|client.queue|, client.window, turns - k)
             == TailAfter(|old(client.queue)|, old(client.window), turns)
      invariant received + |client.queue| == received0 + |old(client.queue)|
      invariant server.ended <==> old(server.ended) || (k > 0 && client.ended && client.queue == [])
      invariant k > 0 ==> |old(client.queue)| > 0
      invariant k == 0 ==> client.queue == old(client.queue)
      decreases turns - k
    {
      TransferData(client, server);
      var consumed := ConsumeAvailableData(server);
      received := received + consumed;
      k := k + 1;
    }
    TailSettles(|client.queue|, client.window, turns - k);
  }

  /** The second loop as it stands; with less credit than the tail it would not end. */
  method DrainTail(client: Client, server: Server, received0: nat) returns (received: nat)
    requires |client.queue| <= client.window && server.events == []
    modifies client`queue, client`window, server`events, server`credit, server`ended
    ensures client.queue == [] && server.events == [] && received == received0 + |old(client.queue)|
    ensures server.ended <==> old(server.ended) || (|old(client.queue)| > 0 && client.ended)
  {
    received := received0;
    while |client.queue| > 0
      invariant |client.queue| <= client.window && server.events == []
      invariant received + |client.queue| == received0 + |old(client.queue)|
      invariant if client.queue == old(client.queue) then server.ended <==> old(server.ended)
                else client.queue == [] && (server.ended <==> old(server.ended) || client.ended)
      decreases |client.queue|
    {
      TransferData(client, server);
      var consumed := ConsumeAvailableData(server);
      received := received + consumed;
    }
  }

  /** `main` up to the second loop: whether that loop ends, and what it will have uploaded. */
  method Submit(body: Bytes, chunk: nat, window: nat, threshold: nat)
    returns (client: Client, server: Server, offset: nat, received: nat, ghost released: nat)
    requires chunk > 0 && threshold > 0
    ensures fresh(client) && fresh(server) && server.events == []
    ensures received == Min(|body|, window) && offset == Submitted(|body|, chunk, window)
    ensures received <= offset <= |body| && client.queue == body[received..offset]
    ensures released <= received && received - released < threshold && client.window == window - received + released
    ensures client.ended <==> 0 < offset == |body|
    ensures server.ended <==> 0 < received == |body|
    ensures |client.queue| <= client.window <==> Submitted(|body|, chunk, window) <= window + released
  {
    client := new Client(window);
    server := new Server(threshold);
    offset, received := SubmitChunks(client, server, body, chunk);
    released := TransferCredit(server, client);
  }

  /** The whole upload, its second loop given up after `turns` turns. How many these are makes no difference: the loop
      ends if and only if the credit that came back covers the tail, and it always does when chunk and threshold
      together leave room in the window. Even then a body longer than the first loop submits is left incomplete
      without an error, and END_STREAM is never sent. */
  method Run(body: Bytes, chunk: nat, window: nat, threshold: nat, turns: nat)
    returns (finished: bool, received: nat, complete: bool, ghost released: nat)
    requires chunk > 0 && threshold > 0 && turns > 0
    ensures released <= Min(|body|, window) && Min(|body|, window) - released < threshold
    ensures finished <==> Submitted(|body|, chunk, window) <= window + released
    ensures Submitted(|body|, chunk, window) <= window + Returned(Min(|body|, window), threshold) ==> finished
    ensures chunk + threshold <= window + 1 ==> finished
    ensures received == Min(Submitted(|body|, chunk, window), window + released)
    ensures complete <==> finished && 0 < |body| <= (window / chunk + 1) * chunk
  {
    var client, server, offset;
    client, server, offset, received, released := Submit(body, chunk, window, threshold);
    SubmittedFits(|body|, chunk, window);
    SubmittedAll(|body|, chunk, window);
    TailSettles(|client.queue|, client.window, turns);
    received := DrainTurns(client, server, received, turns);
    finished, complete := |client.queue| == 0, server.ended;
  }

  /** What a library with this threshold may have returned of the credit for `received` bytes. */
  predicate MayReturn(received: nat, threshold: nat, released: nat) {
    released <= received && received - released < threshold
  }

  /** The least it returns. */
  function Returned(received: nat, threshold: nat): nat
    requires threshold > 0
  {
    if received < threshold then 0 else received - (threshold - 1)
  }

  /** The caller's condition: the second loop ends with every library of a threshold if and only if it ends with the one
      that returns the least. */
  lemma FinishesForEveryLibraryExactly(n: nat, chunk: nat, window: nat, threshold: nat)
    requires chunk > 0 && threshold > 0
    ensures (forall released: nat :: MayReturn(Min(n, window), threshold, released) ==>
               Submitted(n, chunk, window) <= window + released)
       <==> Submitted(n, chunk, window) <= window + Returned(Min(n, window), threshold)
  {
    hide Submitted;
    assert MayReturn(Min(n, window), threshold, Returned(Min(n, window), threshold));
  }

  /** A chunk that is larger than two windows keeps the second loop running for ever, however much credit returns. */
  lemma LargeChunkNeverFinishes(n: nat, chunk: nat, window: nat, released: nat, turns: nat)
    requires chunk > 2 * window && n > 2 * window && released <= Min(n, window)
    ensures Submitted(n, chunk, window) > window + released
    ensures TailAfter(Submitted(n, chunk, window) - Min(n, window), window - Min(n, window) + released, turns) > 0
  {
    QuotientBetween(window, chunk, 1);
    assert (window / chunk + 1) * chunk == chunk;
    TailSettles(Submitted(n, chunk, window) - Min(n, window), window - Min(n, window) + released, turns);
  }

  lemma SubmittedFits(n: nat, chunk: nat, window: nat)
    requires 0 < chunk
    ensures Submitted(n, chunk, window) <= Min(n, window) + chunk
    ensures n <= window ==> Submitted(n, chunk, window) == n
  {
    BeyondWindow(window, chunk);
    assert (window / chunk + 1) * chunk == window / chunk * chunk + chunk;
    assert window == window / chunk * chunk + window % chunk;
  }
}

// The client's receive loop: text messages arrive in chunks, are collected in a stream and handed
// on when complete. Other message kinds are read and ignored; a close ends the loop.

module Reassembly {
  type Bytes = seq<bv8>

  // What one receive call returns.
  datatype Received = Text(data: Bytes, last: bool) | Binary(data: Bytes, last: bool) | Close

  // The payloads handed on, given what the stream already holds.
  function Delivered(results: seq<Received>, stream: Bytes): seq<Bytes> {
    if results == [] then []
    else match results[0]
      case Close => []
      case Binary(_, _) => Delivered(results[1..], stream)
      case Text(data, last) =>
        if last then [stream + data] + Delivered(results[1..], []) else Delivered(results[1..], stream + data)
  }

  // The loop; `results` are what the receive calls return until the connection or the caller ends it.
  method ReceiveLoop(results: seq<Received>) returns (messages: seq<Bytes>)
    ensures messages == Delivered(results, [])
  {
    messages := [];
    var stream: Bytes := [];
    var i := 0;
    assert results[0..] == results;
    while i < |results|
      invariant 0 <= i <= |results|
      invariant messages + Delivered(results[i..], stream) == Delivered(results, [])
    {
      assert results[i..][1..] == results[i + 1..];
      var result := results[i];
      i := i + 1;
      if result.Close? { break; }
      if result.Text? {
        stream := stream + result.data;
        if result.last {
          messages := messages + [stream];
          stream := [];
        }
      }
    }
  }

  // ----- what the peer sent -----

  // One message, cut into one or more chunks.
  datatype Message = TextMessage(chunks: seq<Bytes>) | BinaryMessage(chunks: seq<Bytes>)

  function Concat(chunks: seq<Bytes>): Bytes {
    if chunks == [] then [] else chunks[0] + Concat(chunks[1..])
  }

  function Frames(m: Message): seq<Received> {
    seq(|m.chunks|, i requires 0 <= i < |m.chunks| =>
      if m.TextMessage? then Text(m.chunks[i], i == |m.chunks| - 1) else Binary(m.chunks[i], i == |m.chunks| - 1))
  }

  function Wire(ms: seq<Message>): seq<Received> {
    if ms == [] then [] else Frames(ms[0]) + Wire(ms[1..])
  }

  function Payloads(ms: seq<Message>): seq<Bytes> {
    if ms == [] then [] else (if ms[0].TextMessage? then [Concat(ms[0].chunks)] else []) + Payloads(ms[1..])
  }

  lemma {:induction false} OneText(chunks: seq<Bytes>, rest: seq<Received>, stream: Bytes)
    requires chunks != []
    ensures Delivered(Frames(TextMessage(chunks)) + rest, stream) == [stream + Concat(chunks)] + Delivered(rest, [])
    decreases |chunks|
  {
    var all := Frames(TextMessage(chunks)) + rest;
    if |chunks| == 1 {
      assert all[1..] == rest;
      assert chunks[1..] == [];
      assert all[0] == Text(chunks[0], true);
      assert Concat(chunks) == chunks[0] by { assert chunks[0] + [] == chunks[0]; }
    } else {
      assert all[1..] == Frames(TextMessage(chunks[1..])) + rest;
      OneText(chunks[1..], rest, stream + chunks[0]);
      assert stream + chunks[0] + Concat(chunks[1..]) == stream + Concat(chunks);
    }
  }

  lemma {:induction false} OneBinary(chunks: seq<Bytes>, rest: seq<Received>, stream: Bytes)
    ensures Delivered(Frames(BinaryMessage(chunks)) + rest, stream) == Delivered(rest, stream)
    decreases |chunks|
  {
    var all := Frames(BinaryMessage(chunks)) + rest;
    if chunks == [] {
      assert all == rest;
    } else {
      assert all[1..] == Frames(BinaryMessage(chunks[1..])) + rest;
      OneBinary(chunks[1..], rest, stream);
    }
  }

  // However the messages are cut, the text payloads come out whole and in order, and nothing of
  // what follows a close does. An unfinished last message is not handed on.
  lemma {:induction false} Reassembles(ms: seq<Message>, partial: seq<Bytes>, after: seq<Received>)
    requires forall i :: 0 <= i < |ms| ==> ms[i].chunks != []
    ensures Delivered(Wire(ms), []) == Payloads(ms)
    ensures Delivered(Wire(ms) + Unfinished(partial) + [Close] + after, []) == Payloads(ms)
    decreases |ms|
  {
    var tail := Unfinished(partial) + [Close] + after;
    assert Wire(ms) + Unfinished(partial) + [Close] + after == Wire(ms) + tail;
    if ms == [] {
      assert Wire(ms) + tail == tail;
      UnfinishedIsLost(partial, after, []);
    } else {
      Reassembles(ms[1..], partial, after);
      assert Wire(ms[1..]) + Unfinished(partial) + [Close] + after == Wire(ms[1..]) + tail;
      assert Wire(ms) + tail == Frames(ms[0]) + (Wire(ms[1..]) + tail);
      if ms[0].TextMessage? {
        OneText(ms[0].chunks, Wire(ms[1..]), []);
        OneText(ms[0].chunks, Wire(ms[1..]) + tail, []);
        assert [] + Concat(ms[0].chunks) == Concat(ms[0].chunks);
      } else {
        OneBinary(ms[0].chunks, Wire(ms[1..]), []);
        OneBinary(ms[0].chunks, Wire(ms[1..]) + tail, []);
      }
    }
  }

  function Unfinished(chunks: seq<Bytes>): seq<Received> {
    seq(|chunks|, i requires 0 <= i < |chunks| => Text(chunks[i], false))
  }

  lemma {:induction false} UnfinishedIsLost(chunks: seq<Bytes>, after: seq<Received>, stream: Bytes)
    ensures Delivered(Unfinished(chunks) + [Close] + after, stream) == []
    decreases |chunks|
  {
    var all := Unfinished(chunks) + [Close] + after;
    if chunks == [] {
      assert all[0] == Close;
    } else {
      assert all[1..] == Unfinished(chunks[1..]) + [Close] + after;
      UnfinishedIsLost(chunks[1..], after, stream + chunks[0]);
    }
  }
}

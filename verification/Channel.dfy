/** The channel between the parties: all buffers of a round are sent as one stream. */
module Channel {

  function Concat(chunks: seq<seq<bool>>, n: nat): (s: seq<bool>)
    requires n <= |chunks|
  {
    if n == 0 then [] else Concat(chunks, n - 1) + chunks[n - 1]
  }

  /** Chunk i is found in the stream behind the chunks before it. */
  lemma {:induction false} ConcatAt(chunks: seq<seq<bool>>, i: nat, n: nat)
    requires i < n <= |chunks|
    ensures var at := |Concat(chunks, i)|;
            at + |chunks[i]| <= |Concat(chunks, n)| && Concat(chunks, n)[at..at + |chunks[i]|] == chunks[i]
    ensures |Concat(chunks, i + 1)| == |Concat(chunks, i)| + |chunks[i]|
  {
    var at := |Concat(chunks, i)|;
    if i < n - 1 {
      ConcatAt(chunks, i, n - 1);
      assert Concat(chunks, n)[at..at + |chunks[i]|] == Concat(chunks, n - 1)[at..at + |chunks[i]|];
    }
  }

  predicate SizesOf(chunks: seq<seq<bool>>, sizes: seq<nat>) {
    |chunks| == |sizes| && forall i | 0 <= i < |chunks| :: |chunks[i]| == sizes[i]
  }

  /** ThreadSendValues: the buffers are copied behind each other. */
  method SendValues(sendbuf: seq<seq<bool>>) returns (stream: seq<bool>)
    ensures stream == Concat(sendbuf, |sendbuf|)
  {
    stream := [];
    for i := 0 to |sendbuf|
      invariant stream == Concat(sendbuf, i)
    {
      stream := stream + sendbuf[i];
    }
  }

  /** ThreadReceiveValues: if the sizes a party waits for are those the peer sends, it gets the peer's buffers. */
  method ReceiveValues(stream: seq<bool>, rcvbytes: seq<nat>, ghost sent: seq<seq<bool>>) returns (rcvbuf: seq<seq<bool>>)
    requires stream == Concat(sent, |sent|) && SizesOf(sent, rcvbytes)
    ensures rcvbuf == sent
  {
    rcvbuf := [];
    var ctr := 0;
    for i := 0 to |rcvbytes|
      invariant ctr == |Concat(sent, i)| && rcvbuf == sent[..i]
    {
      ConcatAt(sent, i, |sent|);
      rcvbuf := rcvbuf + [stream[ctr..ctr + rcvbytes[i]]];
      ctr := ctr + rcvbytes[i];
    }
  }
}

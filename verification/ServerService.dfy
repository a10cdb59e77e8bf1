/** The server's request path on the session object (getRecordWhenReady and sendServerMessage
    in internal/app/server/recorder/service.go), without interference from other requests; the
    Protocol module gives the interleaved version. */
module ServerService {
  import opened Messages
  import opened Prelude
  import opened Session
  import opened SessionTable

  /** What the select sees first: a reply set by the receiver, the timeout, or the end of the
      HTTP request. */
  datatype Wait = Replied(response: Response) | TimedOut | Cancelled

  /** The record is numbered, listed and published; while the handler waits the receiver may set
      a reply; the record is then removed, and either its time is sent back or it becomes a 504. */
  method GetRecordWhenReady(session: Session, request: Request, idPrefix: string, wait: Wait, elapsed: int)
    returns (record: Record, failed: bool)
    requires session.Valid() && !session.channelClosed && |session.recordChannel| + 1 < 32
    modifies session`records, session`recordChannel, session.counter
    ensures fresh(record) && session.Valid() && record.request == request
    ensures record.id == NextId(old(session.Table()), idPrefix) && record.serverElapsed == elapsed
    ensures failed <==> !wait.Replied?
    ensures record.response == Some(if wait.Replied? then wait.response else Response("", 504, "Gateway Timeout"))
    ensures var listed := Put(Number(old(session.Table())), record.id, None);
            var published := Send(listed, Message.Pointer(record));
            session.Table() == if failed then published else Send(published, ElapsedOf(record.id, elapsed))
    ensures wait.Replied? <==> record.onResponse.signalChan.closed
  {
    record := new Record(request);
    var recordId := session.AddRecordAndPublish(record, idPrefix);
    var onResponse := record.onResponse.Receive();
    if wait.Replied? {
      session.SetRecordResponse(recordId, wait.response);
    }
    failed := !onResponse.closed;
    var _ := session.RemoveRecord(record.id);
    record.serverElapsed := elapsed;
    if failed {
      record.response := Some(GATEWAY_TIMEOUT);
    } else {
      session.SendServerElapsed(record);
    }
  }

  /** How a stream.Send ends: delivered, refused as too large, or broken. */
  datatype Sending = Sent | TooLarge | Broken

  /** The first message whose send breaks the stream, the number of verdicts if none does. */
  function FirstBroken(verdicts: seq<Sending>): (n: nat)
    ensures n <= |verdicts| && (n < |verdicts| ==> verdicts[n].Broken?)
    ensures forall i :: 0 <= i < n ==> !verdicts[i].Broken?
  {
    if verdicts == [] || verdicts[0].Broken? then 0 else 1 + FirstBroken(verdicts[1..])
  }

  /** The messages of a batch that were delivered, in order. */
  function Delivered<M>(messages: seq<M>, verdicts: seq<Sending>): (r: seq<M>)
    requires |messages| == |verdicts|
    ensures |r| <= |messages|
  {
    if messages == [] then []
    else Delivered(messages[..|messages| - 1], verdicts[..|messages| - 1])
         + if verdicts[|messages| - 1].Sent? then [messages[|messages| - 1]] else []
  }

  /** `r` are the messages at the positions `at`, in order, and those are the positions of the
      messages sent. */
  ghost predicate SentAt<M>(messages: seq<M>, verdicts: seq<Sending>, r: seq<M>, at: seq<nat>)
    requires |messages| == |verdicts|
  {
    && |at| == |r|
    && (forall i :: 0 <= i < |at| ==> at[i] < |messages| && r[i] == messages[at[i]])
    && (forall i, j :: 0 <= i < j < |at| ==> at[i] < at[j])
    && (forall k :: 0 <= k < |messages| ==> (k in at <==> verdicts[k].Sent?))
  }

  lemma SentOneMore<M>(messages: seq<M>, verdicts: seq<Sending>, r: seq<M>, at: seq<nat>, m: M, v: Sending)
    requires |messages| == |verdicts| && SentAt(messages, verdicts, r, at)
    ensures v.Sent? ==> SentAt(messages + [m], verdicts + [v], r + [m], at + [|messages|])
    ensures !v.Sent? ==> SentAt(messages + [m], verdicts + [v], r, at)
  {
    assert |messages| !in at;
  }

  lemma DeliveredSnoc<M>(messages: seq<M>, verdicts: seq<Sending>, m: M, v: Sending)
    requires |messages| == |verdicts|
    ensures Delivered(messages + [m], verdicts + [v]) == Delivered(messages, verdicts) + if v.Sent? then [m] else []
  {
    assert (messages + [m])[..|messages|] == messages && (verdicts + [v])[..|verdicts|] == verdicts;
  }

  lemma SnocSentAt<M>(messages: seq<M>, verdicts: seq<Sending>, at: seq<nat>, m: M, v: Sending) returns (at': seq<nat>)
    requires |messages| == |verdicts| && SentAt(messages, verdicts, Delivered(messages, verdicts), at)
    ensures SentAt(messages + [m], verdicts + [v], Delivered(messages + [m], verdicts + [v]), at')
  {
    var r := Delivered(messages, verdicts);
    SentOneMore(messages, verdicts, r, at, m, v);
    DeliveredSnoc(messages, verdicts, m, v);
    assert r + [] == r;
    at' := if v.Sent? then at + [|messages|] else at;
  }

  /** Delivered are the messages sent and no others, each once and in order. */
  lemma {:induction false} DeliveredExactly<M>(messages: seq<M>, verdicts: seq<Sending>) returns (at: seq<nat>)
    requires |messages| == |verdicts|
    ensures SentAt(messages, verdicts, Delivered(messages, verdicts), at)
    decreases |messages|
  {
    if messages == [] {
      at := [];
    } else {
      var n := |messages| - 1;
      var before := DeliveredExactly(messages[..n], verdicts[..n]);
      at := SnocSentAt(messages[..n], verdicts[..n], before, messages[n], verdicts[n]);
      assert messages[..n] + [messages[n]] == messages && verdicts[..n] + [verdicts[n]] == verdicts;
    }
  }

  /** The sender goroutine over the messages queued now, with the network's verdict on each. It
      takes messages from the front until a send breaks the stream; the breaking message is lost,
      the rest stays queued for the next stream's sender. */
  method SendServerMessages(session: Session, verdicts: seq<Sending>) returns (sent: seq<Message>, ended: bool)
    requires session.Valid() && |verdicts| == |session.recordChannel|
    modifies session`recordChannel
    ensures session.Valid()
    ensures ended <==> FirstBroken(verdicts) < |verdicts|
    ensures var n := FirstBroken(verdicts) + if ended then 1 else 0;
            && session.Table() == old(session.Table()).(channel := old(session.recordChannel)[n..])
            && sent == Delivered(old(session.recordChannel)[..n], verdicts[..n])
  {
    sent, ended := [], false;
    ghost var queued := session.recordChannel;
    var i := 0;
    while session.recordChannel != []
      invariant session.Valid() && 0 <= i <= |verdicts| && i <= FirstBroken(verdicts)
      invariant session.Table() == old(session.Table()).(channel := queued[i..])
      invariant sent == Delivered(queued[..i], verdicts[..i])
      decreases |verdicts| - i
    {
      var record := session.recordChannel[0];
      session.recordChannel := session.recordChannel[1..];
      assert queued[..i + 1][..i] == queued[..i] && verdicts[..i + 1][..i] == verdicts[..i];
      var verdict := verdicts[i];
      i := i + 1;
      if verdict.Sent? {
        sent := sent + [record];
      } else if verdict.Broken? {
        return sent, true;
      }
    }
  }
}

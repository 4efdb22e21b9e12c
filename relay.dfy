/**
  The relay step of process_sqs_messages (app.py:22-64) over abstract
  clients: the object store is a map from key to body, the queue a map from
  receipt handle to body, and put_object / delete_message are methods that
  may fail. One received batch is processed message by message; every
  per-message error is caught and the loop goes on.
 */
module Relay {
  import opened Wrappers
  import opened Json
  import opened Pipeline

  /** An opaque token that authorises deleting exactly one delivery. */
  type Handle = string

  /** One entry of response['Messages']: its 'Body' and 'ReceiptHandle'. */
  datatype Message = Message(body: string, receiptHandle: Handle)

  /** How the processing of one message ended, by the path it took through
      the try block of app.py:35-62. */
  datatype Outcome =
    | Committed          // put_object and delete_message both returned
    | Rejected(fault: Fault)  // decoding, unwrapping or the key failed: no call made
    | StoreFailed        // put_object raised: delete_message not called
    | AckFailed          // put_object returned, delete_message raised

  /** The contents of the two external services at one moment. */
  datatype Snapshot = Snapshot(objects: map<string, string>, messages: map<Handle, string>)

  /** The outcomes that processing m can have: the pure step decides
      whether a write is attempted; the services decide whether their calls
      succeed. */
  predicate Possible(m: Message, c: Codec, o: Outcome)
    ensures Possible(m, c, o) ==> (o.Rejected? <==> Transform(m.body, c).Err?)
    ensures Possible(m, c, o) && o.Rejected? ==> Transform(m.body, c) == Err(o.fault)
  {
    match Transform(m.body, c)
    case Err(f) => o == Rejected(f)
    case Ok(_) => o == Committed || o == StoreFailed || o == AckFailed
  }

  /** The state after processing m with outcome o: the record is written
      (overwriting) unless it was rejected or the write failed, and the
      message is deleted only when the outcome is Committed. */
  function Effect(s: Snapshot, m: Message, c: Codec, o: Outcome): (r: Snapshot)
    requires Possible(m, c, o)
    // objects are only added or overwritten, deliveries only removed
    ensures s.objects.Keys <= r.objects.Keys
    ensures r.messages.Keys <= s.messages.Keys
    ensures forall h :: h in r.messages ==> r.messages[h] == s.messages[h]
    // a failure before or during the write changes nothing; only a
    // Committed outcome removes a delivery, and then only the message's own
    ensures o.Rejected? || o == StoreFailed ==> r == s
    ensures o != Committed ==> r.messages == s.messages
    ensures o == Committed ==> r.messages == s.messages - {m.receiptHandle}
  {
    match Transform(m.body, c)
    case Err(_) => s
    case Ok(rec) =>
      Snapshot(
        if o == StoreFailed then s.objects else s.objects[rec.key := rec.body],
        if o == Committed then s.messages - {m.receiptHandle} else s.messages)
  }

  /** Every message of a batch has an outcome it can have. */
  predicate AllPossible(msgs: seq<Message>, outs: seq<Outcome>, c: Codec)
  {
    |msgs| == |outs| && forall i :: 0 <= i < |msgs| ==> Possible(msgs[i], c, outs[i])
  }

  /** The state after processing a batch in order, one outcome per message. */
  function EffectAll(s: Snapshot, msgs: seq<Message>, outs: seq<Outcome>, c: Codec): (r: Snapshot)
    requires AllPossible(msgs, outs, c)
    // a batch never removes an object and never adds a delivery
    ensures s.objects.Keys <= r.objects.Keys
    ensures r.messages.Keys <= s.messages.Keys
    decreases |msgs|
  {
    if msgs == [] then s
    else
      var n := |msgs| - 1;
      Effect(EffectAll(s, msgs[..n], outs[..n], c), msgs[n], c, outs[n])
  }

  // ---------------------------------------------------------------------
  // The external services

  /** The S3 bucket: key to object body. */
  class ObjectStore {
    var objects: map<string, string>

    constructor (initial: map<string, string>)
      ensures objects == initial
    {
      objects := initial;
    }

    /** put_object: on success the key holds exactly the new body whatever it
        held before (overwrite, never append). A call that raises is taken
        to have had no effect on the bucket. */
    method PutObject(key: string, body: string) returns (ok: bool)
      modifies this
      ensures objects == if ok then old(objects)[key := body] else old(objects)
    {
      ok := *;
      if ok {
        objects := objects[key := body];
      }
    }
  }

  /** The SQS queue: receipt handle to message body. */
  class MessageQueue {
    var messages: map<Handle, string>

    constructor (initial: map<Handle, string>)
      ensures messages == initial
    {
      messages := initial;
    }

    /** delete_message: on success the delivery is gone. A call that raises
        is taken to have had no effect on the queue. */
    method DeleteMessage(h: Handle) returns (ok: bool)
      modifies this
      ensures messages == if ok then old(messages) - {h} else old(messages)
    {
      ok := *;
      if ok {
        messages := messages - {h};
      }
    }
  }

  function State(s3: ObjectStore, sqs: MessageQueue): (r: Snapshot)
    reads s3, sqs
  {
    Snapshot(s3.objects, sqs.messages)
  }

  // ---------------------------------------------------------------------
  // The relay step

  /** The body of the try block for one message (app.py:35-62): transform,
      write, and only after the write returned, delete. Every error ends in
      an outcome; none escapes. */
  method ProcessMessage(s3: ObjectStore, sqs: MessageQueue, m: Message, c: Codec) returns (o: Outcome)
    modifies s3, sqs
    ensures Possible(m, c, o)
    ensures State(s3, sqs) == Effect(old(State(s3, sqs)), m, c, o)
  {
    match Transform(m.body, c)
    case Err(f) =>
      o := Rejected(f);
    case Ok(rec) =>
      var stored := s3.PutObject(rec.key, rec.body);
      if !stored {
        o := StoreFailed;
      } else {
        var acked := sqs.DeleteMessage(m.receiptHandle);
        o := if acked then Committed else AckFailed;
      }
  }

  /** `for message in response['Messages']` (app.py:33-62): every message is
      processed, in order, whatever happened to the ones before it. */
  method ProcessMessages(s3: ObjectStore, sqs: MessageQueue, msgs: seq<Message>, c: Codec)
    returns (outs: seq<Outcome>)
    modifies s3, sqs
    ensures AllPossible(msgs, outs, c)
    ensures State(s3, sqs) == EffectAll(old(State(s3, sqs)), msgs, outs, c)
  {
    outs := [];
    var i := 0;
    while i < |msgs|
      invariant 0 <= i <= |msgs|
      invariant AllPossible(msgs[..i], outs, c)
      invariant State(s3, sqs) == EffectAll(old(State(s3, sqs)), msgs[..i], outs, c)
    {
      var o := ProcessMessage(s3, sqs, msgs[i], c);
      outs := outs + [o];
      i := i + 1;
      assert msgs[..i][..i - 1] == msgs[..i - 1];
    }
    assert msgs[..i] == msgs;
  }

  /** One pass of the polling loop over an already received response
      (app.py:32-64): a response without 'Messages' changes nothing. */
  method HandleResponse(s3: ObjectStore, sqs: MessageQueue, response: Option<seq<Message>>, c: Codec)
    returns (outs: seq<Outcome>)
    modifies s3, sqs
    ensures response.None? ==> outs == [] && State(s3, sqs) == old(State(s3, sqs))
    ensures response.Some? ==>
      && AllPossible(response.value, outs, c)
      && State(s3, sqs) == EffectAll(old(State(s3, sqs)), response.value, outs, c)
  {
    match response
    case None =>
      outs := [];
    case Some(msgs) =>
      outs := ProcessMessages(s3, sqs, msgs, c);
  }

  // ---------------------------------------------------------------------
  // Properties of one message's processing

  /** A rejected message and a failed write leave both services exactly as
      they were: no object is written and the message is not deleted
      (app.py:36-48, 57-62). */
  lemma NoWriteMeansNoDelete(s: Snapshot, m: Message, c: Codec, o: Outcome)
    requires Possible(m, c, o) && (o.Rejected? || o == StoreFailed)
    ensures Effect(s, m, c, o) == s
  {
  }

  /** Persist before acknowledge: a delivery leaves the queue only through
      a Committed outcome, and then the store holds the message's record
      under its key (app.py:44-55). */
  lemma DeletedOnlyAfterWrite(s: Snapshot, m: Message, c: Codec, o: Outcome, h: Handle)
    requires Possible(m, c, o)
    requires h in s.messages && h !in Effect(s, m, c, o).messages
    ensures h == m.receiptHandle && o == Committed && Transform(m.body, c).Ok?
    ensures var rec := Transform(m.body, c).value;
      rec.key in Effect(s, m, c, o).objects && Effect(s, m, c, o).objects[rec.key] == rec.body
  {
  }

  /** A failed delete after a successful write: the new object stays and so
      does the message; the error does not undo the write (app.py:44-56, 61-62). */
  lemma AckFailureKeepsObject(s: Snapshot, m: Message, c: Codec)
    requires Transform(m.body, c).Ok?
    ensures Possible(m, c, AckFailed)
    ensures var rec := Transform(m.body, c).value;
      Effect(s, m, c, AckFailed) == Snapshot(s.objects[rec.key := rec.body], s.messages)
  {
  }

  /** Frame: processing one message can change the object under its own key
      only, and can delete its own receipt handle only (app.py:44-55). */
  lemma TouchesOnlyOwnKeyAndHandle(s: Snapshot, m: Message, c: Codec, o: Outcome)
    requires Possible(m, c, o)
    ensures var r := Effect(s, m, c, o);
      && s.objects.Keys <= r.objects.Keys
      && (forall k :: k in r.objects && !(Transform(m.body, c).Ok? && k == Transform(m.body, c).value.key) ==>
            k in s.objects && r.objects[k] == s.objects[k])
      && (r.messages == s.messages || r.messages == s.messages - {m.receiptHandle})
  {
  }

  /** A redelivery (a body that transforms to the same record, such as the
      same body under a new receipt handle) rewrites the same object with the
      same body: after the second delivery the store is exactly what it was
      after the first, whichever way the second one ends (app.py:44-48). */
  lemma RedeliveryOverwritesIdentically(s: Snapshot, m1: Message, m2: Message, c: Codec, o1: Outcome, o2: Outcome)
    requires Transform(m1.body, c) == Transform(m2.body, c)
    requires Possible(m1, c, o1) && Possible(m2, c, o2) && o1 != StoreFailed
    ensures Effect(Effect(s, m1, c, o1), m2, c, o2).objects == Effect(s, m1, c, o1).objects
  {
  }

  /** MaxNumberOfMessages=1 (app.py:27): a batch of one message is exactly
      one relay step. */
  lemma SingleMessageBatch(s: Snapshot, m: Message, c: Codec, o: Outcome)
    requires Possible(m, c, o)
    ensures AllPossible([m], [o], c)
    ensures EffectAll(s, [m], [o], c) == Effect(s, m, c, o)
  {
    assert [m][..0] == [];
  }

  // ---------------------------------------------------------------------
  // Properties of a batch

  /** The last message of a batch is processed after all the others. */
  lemma EffectAllLast(s: Snapshot, msgs: seq<Message>, outs: seq<Outcome>, c: Codec)
    requires AllPossible(msgs, outs, c) && |msgs| > 0
    ensures AllPossible(msgs[..|msgs| - 1], outs[..|msgs| - 1], c)
    ensures Possible(msgs[|msgs| - 1], c, outs[|msgs| - 1])
    ensures EffectAll(s, msgs, outs, c) ==
      Effect(EffectAll(s, msgs[..|msgs| - 1], outs[..|msgs| - 1], c), msgs[|msgs| - 1], c, outs[|msgs| - 1])
  {
  }

  /** At-least-once: every delivery that the batch removed from the queue
      belongs to a message of the batch whose outcome was Committed, and
      that message's record is in the store at the end of the batch. */
  lemma {:induction false} NoDeliveryLost(s: Snapshot, msgs: seq<Message>, outs: seq<Outcome>, c: Codec, h: Handle)
    returns (i: nat)
    requires AllPossible(msgs, outs, c)
    requires h in s.messages && h !in EffectAll(s, msgs, outs, c).messages
    ensures i < |msgs| && msgs[i].receiptHandle == h && outs[i] == Committed
    ensures Transform(msgs[i].body, c).Ok? &&
      Transform(msgs[i].body, c).value.key in EffectAll(s, msgs, outs, c).objects
    decreases |msgs|
  {
    var n := |msgs| - 1;
    var before := EffectAll(s, msgs[..n], outs[..n], c);
    var after := EffectAll(s, msgs, outs, c);
    assert after == Effect(before, msgs[n], c, outs[n]);
    TouchesOnlyOwnKeyAndHandle(before, msgs[n], c, outs[n]);
    if h in before.messages {
      DeletedOnlyAfterWrite(before, msgs[n], c, outs[n], h);
      i := n;
    } else {
      var j := NoDeliveryLost(s, msgs[..n], outs[..n], c, h);
      assert msgs[..n][j] == msgs[j] && outs[..n][j] == outs[j];
      i := j;
    }
  }

  /** A delivery that no message of the batch refers to stays in the queue
      untouched. */
  lemma {:induction false} UntouchedDeliveriesStay(s: Snapshot, msgs: seq<Message>, outs: seq<Outcome>, c: Codec, h: Handle)
    requires AllPossible(msgs, outs, c)
    requires h in s.messages
    requires forall i :: 0 <= i < |msgs| ==> msgs[i].receiptHandle != h
    ensures h in EffectAll(s, msgs, outs, c).messages
    ensures EffectAll(s, msgs, outs, c).messages[h] == s.messages[h]
    decreases |msgs|
  {
    if msgs != [] {
      var n := |msgs| - 1;
      forall i | 0 <= i < n
        ensures msgs[..n][i].receiptHandle != h
      {
        assert msgs[..n][i] == msgs[i];
      }
      UntouchedDeliveriesStay(s, msgs[..n], outs[..n], c, h);
      TouchesOnlyOwnKeyAndHandle(EffectAll(s, msgs[..n], outs[..n], c), msgs[n], c, outs[n]);
    }
  }

  /** xs without its i-th element. */
  function Drop<T>(xs: seq<T>, i: nat): (r: seq<T>)
    requires i < |xs|
    ensures |r| == |xs| - 1
  {
    xs[..i] + xs[i + 1..]
  }

  lemma DropBeforeLast<T>(xs: seq<T>, i: nat)
    requires i + 1 < |xs|
    ensures xs[..|xs| - 1] + [xs[|xs| - 1]] == xs
    ensures Drop(xs[..|xs| - 1], i) + [xs[|xs| - 1]] == Drop(xs, i)
  {
    var n := |xs| - 1;
    assert xs[..n][..i] == xs[..i];
    assert xs[..n][i + 1..] + [xs[n]] == xs[i + 1..];
  }

  lemma DropPossible(msgs: seq<Message>, outs: seq<Outcome>, c: Codec, i: nat)
    requires AllPossible(msgs, outs, c) && i < |msgs|
    ensures AllPossible(Drop(msgs, i), Drop(outs, i), c)
  {
    var dm, dout := Drop(msgs, i), Drop(outs, i);
    forall j | 0 <= j < |dm|
      ensures Possible(dm[j], c, dout[j])
    {
      if j < i {
        assert dm[j] == msgs[j] && dout[j] == outs[j];
      } else {
        assert dm[j] == msgs[j + 1] && dout[j] == outs[j + 1];
      }
    }
  }

  /** Two batches with the same effect still have the same effect after one
      more message is processed. */
  lemma AppendSameMessage(s: Snapshot, a: seq<Message>, oa: seq<Outcome>, b: seq<Message>, ob: seq<Outcome>,
                          c: Codec, m: Message, o: Outcome)
    requires AllPossible(a, oa, c) && AllPossible(b, ob, c) && Possible(m, c, o)
    requires EffectAll(s, a, oa, c) == EffectAll(s, b, ob, c)
    ensures AllPossible(a + [m], oa + [o], c) && AllPossible(b + [m], ob + [o], c)
    ensures EffectAll(s, a + [m], oa + [o], c) == EffectAll(s, b + [m], ob + [o], c)
  {
    assert (a + [m])[..|a|] == a && (oa + [o])[..|a|] == oa;
    assert (b + [m])[..|b|] == b && (ob + [o])[..|b|] == ob;
  }

  /** One message's failure does not stop the batch: a message that was
      rejected or whose write failed has the same effect as if it had not
      been in the batch at all, so the messages after it are processed
      exactly as they would have been (app.py:33-62). */
  lemma {:induction false} FailedMessageIsSkipped(s: Snapshot, msgs: seq<Message>, outs: seq<Outcome>, c: Codec, i: nat)
    requires AllPossible(msgs, outs, c) && i < |msgs|
    requires outs[i].Rejected? || outs[i] == StoreFailed
    ensures AllPossible(Drop(msgs, i), Drop(outs, i), c)
    ensures EffectAll(s, msgs, outs, c) == EffectAll(s, Drop(msgs, i), Drop(outs, i), c)
    decreases |msgs|
  {
    var n := |msgs| - 1;
    DropPossible(msgs, outs, c, i);
    EffectAllLast(s, msgs, outs, c);
    var before := EffectAll(s, msgs[..n], outs[..n], c);
    if i == n {
      assert Drop(msgs, i) == msgs[..n] && Drop(outs, i) == outs[..n];
      NoWriteMeansNoDelete(before, msgs[n], c, outs[n]);
    } else {
      FailedMessageIsSkipped(s, msgs[..n], outs[..n], c, i);
      AppendSameMessage(s, msgs[..n], outs[..n], Drop(msgs[..n], i), Drop(outs[..n], i), c, msgs[n], outs[n]);
      DropBeforeLast(msgs, i);
      DropBeforeLast(outs, i);
    }
  }
}

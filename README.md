# puller2 relay step, modelled in Dafny

puller2 is a small relay service. `process_sqs_messages` in `app.py` polls an SQS queue,
decodes each message body as JSON, unwraps a top-level `data` envelope once, and writes
the value to an S3 bucket under the key `<email_timestream>.json`. Only after that write
returns does it delete the message from the queue. Every per-message error is caught, so
one bad message never stops the next one from being processed.

This project models that step and proves its delivery contract:
- persist before acknowledge;
- no delete after any failure;
- a redelivered message gives an identical overwrite;
- one message touches only its own key and its own receipt handle;
- a failed message does not disturb the rest of the batch.

Files:
- `wrappers.dfy`: the `Option` and `Result` datatypes.
- `json.dfy` (module `Json`): decoded JSON values and the `Codec`. The codec holds
  json.loads, json.dumps and Python's str() of a list or dict as total, deterministic
  functions that are not interpreted. The module function `PyStr` gives Python's str() of
  any decoded value. For a str, int, bool or None it is written out. For an int it is the
  canonical decimal text, proved to read back as the int and to be the only canonical text
  that does. For a list or dict it is the codec's `show`.
- `pipeline.dfy` (module `Pipeline`): the pure steps decode, unwrap, key and serialise
  (`Parse`, `Unwrap`, `KeyOf`, `RecordOf`, `Transform`) and what is proved about them.
- `relay.dfy` (module `Relay`): the S3 bucket (`ObjectStore`) and the queue
  (`MessageQueue`) as classes over maps. `PutObject` and `DeleteMessage` may fail and
  choose their outcome nondeterministically. `ProcessMessage` is the try block for one
  message, `ProcessMessages` the loop over `response['Messages']`, and `HandleResponse`
  the `'Messages' in response` test. Each method's new state is tied to the pure
  functions `Effect`/`EffectAll`, and the lemmas about those functions state the delivery
  contract.

How the code's behaviour maps onto the model:
- Each caught exception becomes an `Outcome`:
  - JSONDecodeError is `Rejected(Malformed)`.
  - KeyError on `email_timestream` is `Rejected(MissingIdentity)`.
  - A TypeError (from `in` or `[...]` on a decoded value that is not a dict) is
    `Rejected(WrongType)`.
  - put_object raising is `StoreFailed`.
  - delete_message raising after a successful put is `AckFailed`.
- Python's `'data' in data` is modelled for every decoded type: a key test on a dict, an
  element test on a list, a substring test on a str, and a TypeError on a number, bool or
  None.

What the code does not do, and the model therefore does not do either:
- It does not strip newlines from the body; the body is decoded as received.
- It does not check that the queue exists and keeps no backoff state. `WaitTimeSeconds=10`
  is only the long-poll wait.
- It does not reject an empty identity, which gives the key `.json`.
- It does not report a body that decodes to something other than a dict as a missing
  identity. The TypeError goes to the generic `except Exception`.
- It does not keep identities of different types apart. The key is str() of the identity,
  so the str "5" and the int 5 share the key `5.json`, and so do "True" and true, and
  "None" and null. One such record overwrites the other (`KeysCollideAcrossTypes`).
- It does not guard the receive call. `sqs.receive_message` (app.py:25-29) sits outside the
  try block, so an error raised there ends the relay loop and the function. Only the
  per-message work is protected.

## Model

| member | source | states |
|---|---|---|
| Json.NatToDecimal | app.py:46 | the decimal text of a natural number is non-empty, all digits, and has no leading zero |
| Json.DecimalRoundTrip | app.py:46 | reading back the decimal text of n gives n |
| Json.IntToStr | app.py:46 | Python's str() of an int is canonical (no leading zero, a minus sign exactly for negative numbers, never "-0") and reads back as that int |
| Json.LeadingDigitPositive | app.py:46 | digits with a non-zero leading digit denote a positive number |
| Json.CanonicalDigitsUnique | app.py:46 | canonical digits are the decimal text of the number they denote |
| Json.CanonicalIntUnique | app.py:46 | any canonical text that reads back as i is exactly str(i), so the contract of IntToStr fixes the key of an int identity |
| Json.IntToStrInjective | app.py:46 | two integer identities with the same str() are equal, so numeric identities never share a key |
| Json.PyStr | app.py:46 | str() of a str identity is the string itself; of an int it is the canonical text that reads back as that int; of the JSON literals it is "True"/"False"/"None" |
| Pipeline.Parse | app.py:36 | the decode step fails exactly when json.loads fails, and then with Malformed; on success it yields json.loads' value |
| Pipeline.Unwrap | app.py:38-40 | a dict with a `data` member yields that member and a dict without one yields itself, one level and never deeper; any failure is a TypeError |
| Pipeline.KeyOf | app.py:46 | a key exists exactly when the value is a dict holding `email_timestream`, and it is str() of that field followed by ".json"; otherwise KeyError on a dict and TypeError on anything else |
| Pipeline.RecordOf | app.py:44-48 | a record exists exactly when the value is a dict holding `email_timestream`; it is keyed by str() of that field plus ".json" and carries json.dumps of the whole value; otherwise KeyError on a dict and TypeError on anything else |
| Pipeline.Payload | app.py:36-40 | the value to store exists exactly when decoding and the `data in` test succeed; it is the decoded dict's `data` member when present, else the decoded value |
| Pipeline.Transform | app.py:36-47 | the step reports Malformed exactly when json.loads fails; a decoded value rejected by the `data in` test gives a TypeError; otherwise the result is the record of the unwrapped value |
| Pipeline.MalformedRejected | app.py:36-36 | a body that does not decode is rejected as Malformed |
| Pipeline.TransformSucceedsIff | app.py:36-48 | the step yields a record exactly when the unwrapped value is a dict with the identity field; the key is str(identity)+".json" and the body is the encoding of the unwrapped value, not of the envelope |
| Pipeline.EnvelopeUnwrappedOnce | app.py:39-40 | with a top-level `data` member, the record is built from that member as it is, without unwrapping again |
| Pipeline.PlainObjectUnchanged | app.py:39 | a dict without `data` is used unchanged |
| Pipeline.NonObjectRejected | app.py:39-46 | a decoded value that is not a dict is rejected with a TypeError |
| Pipeline.MissingIdentityRejected | app.py:46 | a dict, unwrapped or not, without `email_timestream` raises KeyError (MissingIdentity); a `data` member that is not a dict raises TypeError |
| Pipeline.StringIdentityKey | app.py:44-47 | a string identity gives exactly the key `<identity>.json`, the empty string included, with the encoded dict as body |
| Pipeline.EnvelopeEquivalence | app.py:39-47 | `{"data": R}` and `R` give the same key and body when R is a dict without its own `data` member (the body comparison holds up to field order; see Left out) |
| Pipeline.NestedEnvelopeKept | app.py:39-47 | a doubly wrapped record is stored with its inner `data` member still in place |
| Pipeline.KeyDependsOnlyOnStr | app.py:46 | for an identity of any type, the key is the one a str identity holding its str() text would get |
| Pipeline.KeyInjective | app.py:46 | two dicts with string identities get the same key from KeyOf only when the identities are equal |
| Pipeline.KeysCollideAcrossTypes | app.py:44-46 | identities of different types share a key: "5" and 5 both give `5.json`, "True" and true collide, and so do "None" and null |
| Pipeline.StoredBodyRelaysToItself | app.py:36-48 | with a round-tripping codec, relaying a stored object again yields the same key and body, provided the stored value has no `data` member |
| Relay.Possible | app.py:35-62 | an outcome the code can reach for a message is a rejection exactly when the pure step fails, and then with that step's fault |
| Relay.Effect | app.py:44-55 | one message only adds or overwrites objects and only removes deliveries; a rejection or failed write changes nothing; only Committed removes a delivery, and only the message's own |
| Relay.EffectAll | app.py:33-62 | a batch never removes an object and never adds a delivery |
| Relay.ObjectStore.PutObject | app.py:44-48 | on success the key holds exactly the new body (overwrite, no append); a call that raises is taken to have changed nothing (see Left out) |
| Relay.MessageQueue.DeleteMessage | app.py:52-55 | on success exactly that receipt handle is removed; a call that raises is taken to have changed nothing (see Left out) |
| Relay.ProcessMessage | app.py:35-62 | the outcome is one the message can have, and the new store and queue are `Effect` of the old ones; no error escapes |
| Relay.ProcessMessages | app.py:33-62 | every message of the batch gets an outcome, in order, and the final state is `EffectAll` of the initial one |
| Relay.HandleResponse | app.py:32-64 | a response without messages changes nothing and yields no outcome; otherwise the batch is processed as `ProcessMessages` says |
| Relay.NoWriteMeansNoDelete | app.py:36-62 | a rejected message or a failed write leaves both the store and the queue exactly as they were |
| Relay.DeletedOnlyAfterWrite | app.py:44-55 | a delivery leaves the queue only through a Committed outcome of its own message, and the store then holds that message's record under its key |
| Relay.AckFailureKeepsObject | app.py:44-62 | when delete fails after a successful write, the new object stays and the message stays in the queue |
| Relay.TouchesOnlyOwnKeyAndHandle | app.py:44-55 | one message changes only the object under its own key and removes at most its own receipt handle; no object is removed |
| Relay.RedeliveryOverwritesIdentically | app.py:44-48 | a second delivery whose body transforms to the same record (the same body, or one differing in whitespace or envelope), under any receipt handle and with any outcome, leaves the store exactly as the first delivery's write left it |
| Relay.SingleMessageBatch | app.py:25-33 | with MaxNumberOfMessages=1, a batch of one message is exactly one relay step |
| Relay.NoDeliveryLost | app.py:33-62 | every delivery the batch removed from the queue belongs to a Committed message of the batch, and that message's key is in the store at the end |
| Relay.UntouchedDeliveriesStay | app.py:33-62 | a delivery that no message of the batch refers to stays in the queue with its body |
| Relay.FailedMessageIsSkipped | app.py:33-62 | a rejected message, or one whose write failed, has the same effect on the batch as if it had not been received, so the messages after it are processed unaffected |

## Left out

- The Flask application, the `/start` route and `app.run` (app.py:7-8, 77-83): HTTP plumbing.
- Environment variables and boto3 client construction (app.py:10-20). The two clients are
  the `ObjectStore` and `MessageQueue` objects, and the bucket and queue URL are implicit.
- Logging: output only. The `Outcome` values stand in for the log lines that say which
  handler caught a message.
- The unbounded `while True` loop and long polling (app.py:24-29). The model takes one
  received response as input and processes it. The receive call itself and its waiting are
  not modelled.
- HandleResponse: the batch is modelled for any length, although MaxNumberOfMessages=1
  (app.py:27) makes the service return at most one message. `SingleMessageBatch` covers that
  case.
- The internals of json.loads and json.dumps (app.py:36, 47): they are uninterpreted
  functions of the `Codec`. The only assumption, the json.loads/json.dumps round trip, is
  made by `StoredBodyRelaysToItself` alone.
- JSON floats: `JNum` holds integers only. Any body holding a JSON number that json.loads
  turns into a Python float (`1.5`, but also `1.0`, `1e2`, `NaN` and `Infinity`) is outside
  the value domain, and the key and body lemmas say nothing about such bodies.
- Json.PyStr: str() of a list or dict is the codec's `show` function, because Python's
  rendering depends on dict insertion order, which a Dafny map does not keep.
- json.dumps (the codec's `encode`, app.py:47) does not see field order either. A
  `JObject` is a map, so two bodies whose fields differ only in order decode to the same
  value and are given the same stored text. Python writes the fields back in the order
  they were read, so its two texts differ.
- Pipeline.EnvelopeEquivalence: its "same body" holds in Python only when R's fields are
  in the same order in both texts, for the reason just given.
- Relay.ObjectStore.PutObject: a put_object that raises is modelled as having written
  nothing. In reality boto3 can raise after S3 has applied the write, for example on a
  timeout waiting for the response. The store-side results of `NoWriteMeansNoDelete` and
  `FailedMessageIsSkipped` rest on this all-or-nothing model. The
  delete-only-after-a-returned-write results do not.
- Relay.MessageQueue.DeleteMessage: a delete_message that raises is modelled as having
  deleted nothing, although SQS may already have removed the message. `AckFailureKeepsObject`
  ("the message stays in the queue") rests on this. A message deleted despite the error is
  not lost, because its write had already returned.
- app.py:65-75 is not modelled: it is a mis-indented duplicate of the delete and the
  handlers, and it makes the file fail to parse. Lines 22-64 are taken as the function.
- Receipt-handle validity, visibility timeouts and redelivery by the queue service are
  not modelled. A redelivery is represented in `RedeliveryOverwritesIdentically` as a
  second message whose body transforms to the same record.

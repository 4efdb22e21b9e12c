/**
  The pure part of the per-message relay step (app.py:36-47): decode the
  body, unwrap a top-level `data` envelope once, derive the storage key
  `<email_timestream>.json`, and serialise the unwrapped value.
 */
module Pipeline {
  import opened Wrappers
  import opened Json

  /** The envelope field that is unwrapped once (app.py:39-40). */
  const Envelope: string := "data"
  /** The identity field the storage key is built from (app.py:46). */
  const Identity: string := "email_timestream"
  /** The suffix appended to the identity (app.py:46). */
  const Suffix: string := ".json"

  /** Why a message is not stored, by the handler that catches it:
      JSONDecodeError (app.py:57), KeyError (app.py:59), and the TypeError
      raised by `in` or `[...]` on a value that is not a dict, which falls
      into `except Exception` (app.py:61). */
  datatype Fault = Malformed | MissingIdentity | WrongType

  /** What put_object is called with (app.py:44-48). */
  datatype Record = Record(key: string, body: string)

  /** Python's `needle in hay` on two strings: a substring test. */
  predicate ContainsSubstring(hay: string, needle: string)
  {
    exists i :: 0 <= i <= |hay| - |needle| && OccursAt(hay, needle, i)
  }

  predicate OccursAt(hay: string, needle: string, i: nat)
  {
    i + |needle| <= |hay| && hay[i..i + |needle|] == needle
  }

  /** json.loads of the body (app.py:36). */
  function Parse(body: string, c: Codec): (r: Result<JValue, Fault>)
    ensures r.Err? <==> c.decode(body).None?
    ensures r.Err? ==> r.error == Malformed
    ensures r.Ok? ==> c.decode(body) == Some(r.value)
  {
    match c.decode(body)
    case None => Err(Malformed)
    case Some(v) => Ok(v)
  }

  /** `if 'data' in data: data = data['data']` (app.py:39-40). On a dict this
      is a key test; on a list an element test, after which subscripting the
      list by a str raises TypeError; on a str a substring test, after which
      subscripting raises TypeError; on an int, bool or None the `in` test
      itself raises TypeError. */
  function Unwrap(v: JValue): (r: Result<JValue, Fault>)
    // a dict never fails, and the result is the value itself or its direct
    // `data` member: one level, never deeper
    ensures v.JObject? ==> r.Ok?
    ensures r.Ok? ==> r.value == v || (v.JObject? && Envelope in v.fields && r.value == v.fields[Envelope])
    ensures v.JObject? && Envelope in v.fields ==> r == Ok(v.fields[Envelope])
    ensures v.JObject? && Envelope !in v.fields ==> r == Ok(v)
    ensures r.Err? ==> r.error == WrongType
  {
    match v
    case JObject(fields) => if Envelope in fields then Ok(fields[Envelope]) else Ok(v)
    case JArray(items) => if JString(Envelope) in items then Err(WrongType) else Ok(v)
    case JString(s) => if ContainsSubstring(s, Envelope) then Err(WrongType) else Ok(v)
    case _ => Err(WrongType)
  }

  /** `f"{data['email_timestream']}.json"` (app.py:46): KeyError on a dict
      without the field, TypeError on anything that is not a dict. An
      empty identity is not rejected; it gives the key ".json". */
  function KeyOf(w: JValue, c: Codec): (r: Result<string, Fault>)
    ensures r.Ok? <==> w.JObject? && Identity in w.fields
    ensures r.Ok? ==> r.value == PyStr(w.fields[Identity], c) + Suffix
    ensures r.Err? ==> r.error == (if w.JObject? then MissingIdentity else WrongType)
  {
    match w
    case JObject(fields) =>
      if Identity in fields then Ok(PyStr(fields[Identity], c) + Suffix) else Err(MissingIdentity)
    case _ => Err(WrongType)
  }

  /** The put_object arguments for an already unwrapped value: its key and
      json.dumps of it (app.py:44-48). The key is evaluated first, so a
      failing key means no serialisation and no write. */
  function RecordOf(w: JValue, c: Codec): (r: Result<Record, Fault>)
    ensures r.Ok? <==> w.JObject? && Identity in w.fields
    ensures r.Ok? ==> r.value == Record(PyStr(w.fields[Identity], c) + Suffix, c.encode(w))
    ensures r.Err? ==> r.error == (if w.JObject? then MissingIdentity else WrongType)
  {
    match KeyOf(w, c)
    case Err(f) => Err(f)
    case Ok(key) => Ok(Record(key, c.encode(w)))
  }

  /** The whole pure step from message body to put_object arguments: it
      reports Malformed exactly when decoding fails, and otherwise yields
      the record of the once-unwrapped value or the fault that stopped it. */
  function Transform(body: string, c: Codec): (r: Result<Record, Fault>)
    ensures r == Err(Malformed) <==> c.decode(body).None?
    ensures c.decode(body).Some? && Payload(body, c).None? ==> r == Err(WrongType)
    ensures Payload(body, c).Some? ==> r == RecordOf(Payload(body, c).value, c)
  {
    match Parse(body, c)
    case Err(f) => Err(f)
    case Ok(v) =>
      match Unwrap(v)
      case Err(f) => Err(f)
      case Ok(w) => RecordOf(w, c)
  }

  /** The value that is stored for a body: decoded and unwrapped once. It
      exists exactly when decoding and unwrapping succeed, and it is the
      decoded value's `data` member when there is one, else the decoded
      value itself (app.py:36-40). */
  function Payload(body: string, c: Codec): (r: Option<JValue>)
    ensures r.Some? <==> c.decode(body).Some? && Unwrap(c.decode(body).value).Ok?
    ensures r.Some? ==>
      var v := c.decode(body).value;
      r.value == if v.JObject? && Envelope in v.fields then v.fields[Envelope] else v
  {
    match c.decode(body)
    case None => None
    case Some(v) => if Unwrap(v).Ok? then Some(Unwrap(v).value) else None
  }

  // ---------------------------------------------------------------------
  // Properties of the pure step

  /** A body that does not decode is rejected as malformed (app.py:36, 57). */
  lemma MalformedRejected(body: string, c: Codec)
    requires c.decode(body).None?
    ensures Transform(body, c) == Err(Malformed)
  {
  }

  /** Transform succeeds exactly when the unwrapped value is a dict holding
      the identity field, and then the key is str() of the identity plus
      ".json" and the body is the encoding of the unwrapped value, not of
      the envelope (app.py:36-48). */
  lemma TransformSucceedsIff(body: string, c: Codec, rec: Record)
    ensures Transform(body, c) == Ok(rec) <==>
      (Payload(body, c).Some? &&
       var w := Payload(body, c).value;
       w.JObject? && Identity in w.fields &&
       rec == Record(PyStr(w.fields[Identity], c) + Suffix, c.encode(w)))
  {
  }

  /** A top-level `data` member replaces the whole value, and is then used
      as it is: it is not unwrapped again even when it has its own `data`
      member (app.py:39-40). */
  lemma EnvelopeUnwrappedOnce(body: string, c: Codec, m: map<string, JValue>)
    requires c.decode(body) == Some(JObject(m)) && Envelope in m
    ensures Transform(body, c) == RecordOf(m[Envelope], c)
  {
  }

  /** A dict without a `data` member is used unchanged (app.py:39). */
  lemma PlainObjectUnchanged(body: string, c: Codec, m: map<string, JValue>)
    requires c.decode(body) == Some(JObject(m)) && Envelope !in m
    ensures Transform(body, c) == RecordOf(JObject(m), c)
  {
  }

  /** A decoded value that is not a dict is never stored: a TypeError is
      raised either by the `in` test, by subscripting by 'data', or by
      subscripting by 'email_timestream' (app.py:39-46, 61). */
  lemma NonObjectRejected(body: string, c: Codec, v: JValue)
    requires c.decode(body) == Some(v) && !v.JObject?
    ensures Transform(body, c) == Err(WrongType)
  {
  }

  /** A dict (the unwrapped one, when there is an envelope) without the
      identity field raises KeyError and is not stored (app.py:46, 59); a
      `data` member that is not a dict raises TypeError. */
  lemma MissingIdentityRejected(body: string, c: Codec, m: map<string, JValue>)
    requires c.decode(body) == Some(JObject(m))
    ensures Envelope !in m && Identity !in m ==> Transform(body, c) == Err(MissingIdentity)
    ensures Envelope in m && m[Envelope].JObject? && Identity !in m[Envelope].fields ==>
      Transform(body, c) == Err(MissingIdentity)
    ensures Envelope in m && !m[Envelope].JObject? ==> Transform(body, c) == Err(WrongType)
  {
  }

  /** A string identity gives exactly the key `<identity>.json`, the empty
      string included (app.py:46). */
  lemma StringIdentityKey(body: string, c: Codec, m: map<string, JValue>, id: string)
    requires c.decode(body) == Some(JObject(m)) && Envelope !in m
    requires Identity in m && m[Identity] == JString(id)
    ensures Transform(body, c) == Ok(Record(id + Suffix, c.encode(JObject(m))))
  {
  }

  /** Wrapped and unwrapped forms of one record are relayed identically:
      `{"data": R}` and `R` give the same key and body whenever R is a dict
      without its own `data` member. */
  lemma EnvelopeEquivalence(wrapped: string, plain: string, c: Codec, r: map<string, JValue>)
    requires c.decode(wrapped) == Some(JObject(map[Envelope := JObject(r)]))
    requires c.decode(plain) == Some(JObject(r)) && Envelope !in r
    ensures Transform(wrapped, c) == Transform(plain, c)
  {
    EnvelopeUnwrappedOnce(wrapped, c, map[Envelope := JObject(r)]);
    PlainObjectUnchanged(plain, c, r);
  }

  /** The unwrapping is not recursive: a doubly wrapped record is stored with
      its inner envelope still in place. */
  lemma NestedEnvelopeKept(body: string, c: Codec, inner: JValue, id: string)
    requires
      var w := JObject(map[Envelope := inner, Identity := JString(id)]);
      c.decode(body) == Some(JObject(map[Envelope := w]))
    ensures
      var w := JObject(map[Envelope := inner, Identity := JString(id)]);
      Transform(body, c) == Ok(Record(id + Suffix, c.encode(w)))
  {
    var w := JObject(map[Envelope := inner, Identity := JString(id)]);
    EnvelopeUnwrappedOnce(body, c, map[Envelope := w]);
    assert w.fields[Identity] == JString(id);
  }

  /** For every identity, of any type: the key is the one a str identity
      holding str() of it would get, so identities collide exactly when their
      str() texts do (app.py:46). */
  lemma KeyDependsOnlyOnStr(v: JValue, c: Codec)
    ensures KeyOf(JObject(map[Identity := v]), c) == KeyOf(JObject(map[Identity := JString(PyStr(v, c))]), c)
  {
  }

  /** Two dicts whose identities are strings get the same key only when
      the identities are equal, so their writes never touch each other's
      object (app.py:46). */
  lemma KeyInjective(m1: map<string, JValue>, m2: map<string, JValue>, c: Codec, a: string, b: string)
    requires Identity in m1 && m1[Identity] == JString(a)
    requires Identity in m2 && m2[Identity] == JString(b)
    requires KeyOf(JObject(m1), c) == KeyOf(JObject(m2), c)
    ensures a == b
  {
    var k := KeyOf(JObject(m1), c).value;
    assert k == a + Suffix && k == b + Suffix;
    assert a == k[..|a|] && b == k[..|b|];
  }

  /** Identities of different types can share a key, because the key is
      built from str() of the identity: the str "5" and the int 5, the str
      "True" and the JSON literal true, the str "None" and null all give the
      same key, so either record overwrites the other (app.py:44-46). */
  lemma KeysCollideAcrossTypes(c: Codec)
    ensures KeyOf(JObject(map[Identity := JString("5")]), c) == Ok("5.json")
    ensures KeyOf(JObject(map[Identity := JNum(5)]), c) == Ok("5.json")
    ensures KeyOf(JObject(map[Identity := JString("True")]), c) == KeyOf(JObject(map[Identity := JBool(true)]), c)
    ensures KeyOf(JObject(map[Identity := JString("None")]), c) == KeyOf(JObject(map[Identity := JNull]), c)
  {
    assert NatToDecimal(5) == "5";
    assert "5" + Suffix == "5.json";
  }

  /** Relaying the stored object again is a fixpoint when the codec round
      trips and the stored value has no `data` member of its own: the same
      key and the same body come out. */
  lemma StoredBodyRelaysToItself(body: string, c: Codec, rec: Record)
    requires RoundTrips(c)
    requires Transform(body, c) == Ok(rec)
    requires Envelope !in Payload(body, c).value.fields
    ensures Transform(rec.body, c) == Ok(rec)
  {
    TransformSucceedsIff(body, c, rec);
    var w := Payload(body, c).value;
    assert c.decode(c.encode(w)) == Some(w);
    assert Unwrap(w) == Ok(w);
  }
}

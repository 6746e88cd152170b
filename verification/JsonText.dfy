/** JSON text as json.Marshal writes it: compact, members in key order, strings escaped. */
module JsonText {
  import opened Options
  import opened Bytes
  import opened SortedKeys
  import opened ResultBounds

  ghost function Encode(v: Json): (text: Bytes)
    decreases v, 1
  {
    match v
    case JNull => "null"
    case JBool(b) => if b then "true" else "false"
    case JNumber(literal) => literal
    case JString(s) => Quote(s)
    case JArray(items) => "[" + EncodeItems(v, items) + "]"
    case JObject(members) => "{" + EncodeFields(v, members, Sorted(members.Keys)) + "}"
  }

  ghost function EncodeItems(v: Json, items: seq<Json>): (text: Bytes)
    requires forall i :: 0 <= i < |items| ==> items[i] < v
    decreases v, 0, |items|
  {
    if items == [] then ""
    else Encode(items[0]) + (if |items| > 1 then "," else "") + EncodeItems(v, items[1..])
  }

  ghost function EncodeFields(v: Json, members: map<Bytes, Json>, ks: seq<Bytes>): (text: Bytes)
    requires forall k :: k in ks ==> k in members && members[k] < v
    decreases v, 0, |ks|
  {
    if ks == [] then ""
    else
      Quote(ks[0]) + ":" + Encode(members[ks[0]]) + (if |ks| > 1 then "," else "") + EncodeFields(v, members, ks[1..])
  }

  /** What json.Marshal makes of a decoded object. */
  ghost function Compact(fields: map<Bytes, Json>): (text: Bytes) {
    Encode(JObject(fields))
  }

  /** The object as it is decoded from text that spells out its members that way. */
  ghost function Printed(fields: map<Bytes, Json>): (b: Body) {
    Body(fields, map k | k in fields :: Encode(fields[k]))
  }

  function Spaces(n: nat): (s: Bytes) {
    seq(n, _ => ' ')
  }

  /** A stdout that holds the object behind n spaces. */
  ghost function Stdouted(n: nat, fields: map<Bytes, Json>): (s: Stdout) {
    Stdout(Spaces(n) + Compact(fields), Some(Printed(fields)))
  }

  lemma {:induction false} FieldsLonger(v: Json, members: map<Bytes, Json>, ks: seq<Bytes>, k: Bytes)
    requires forall x :: x in ks ==> x in members && members[x] < v
    requires k in ks
    ensures |EncodeFields(v, members, ks)| > |Encode(members[k])|
  {
    hide Encode, Quote;
    if ks[0] != k { FieldsLonger(v, members, ks[1..], k); }
  }

  /** An object's text is longer than that of any of its members. */
  lemma CompactLonger(fields: map<Bytes, Json>, k: Bytes)
    requires k in fields
    ensures |Compact(fields)| > |Encode(fields[k])|
  {
    hide EncodeFields, Sorted;
    FieldsLonger(JObject(fields), fields, Sorted(fields.Keys), k);
  }

  /** The text of a body that is down to its warning. */
  lemma CompactOne(fields: map<Bytes, Json>, k: Bytes, s: Bytes)
    requires fields.Keys == {k} && fields[k] == JString(s)
    ensures |Compact(fields)| <= 6 * |k| + 6 * |s| + 7
  {
    hide Sorted, Escape;
    var ks := Sorted(fields.Keys);
    assert |ks| == 1 && ks[0] in ks;
    assert ks == [k];
    assert ks[1..] == [];
    var v := JObject(fields);
    assert EncodeFields(v, fields, ks) == Quote(k) + ":" + Encode(fields[k]) + "" + EncodeFields(v, fields, ks[1..]);
    EscapeSize(k);
    EscapeSize(s);
  }

  // ---------------------------------------------------------------- string members listed one by one

  function KeysOf(ps: seq<(Bytes, Bytes)>): (ks: seq<Bytes>)
    ensures |ks| == |ps| && forall i :: 0 <= i < |ps| ==> ks[i] == ps[i].0
  {
    if ps == [] then [] else [ps[0].0] + KeysOf(ps[1..])
  }

  /** Members in key order, no key twice, all of them valid text. */
  ghost predicate InKeyOrder(ps: seq<(Bytes, Bytes)>) {
    && (forall i, j :: 0 <= i < j < |ps| ==> Leq(ps[i].0, ps[j].0) && ps[i].0 != ps[j].0)
    && (forall i :: 0 <= i < |ps| ==> ValidUtf8(ps[i].1))
  }

  ghost predicate Holds(m: map<Bytes, Json>, ps: seq<(Bytes, Bytes)>) {
    forall i :: 0 <= i < |ps| ==> ps[i].0 in m && m[ps[i].0] == JString(ps[i].1)
  }

  lemma {:induction false} DecodedKeys(ps: seq<(Bytes, Bytes)>)
    ensures forall k :: k in DecodePairs(ps) <==> k in KeysOf(ps)
  {
    hide Sanitize;
    if ps != [] { DecodedKeys(ps[1..]); }
  }

  lemma {:induction false} DecodedHolds(ps: seq<(Bytes, Bytes)>)
    requires InKeyOrder(ps)
    ensures Holds(DecodePairs(ps), ps) && |DecodePairs(ps).Keys| == |ps|
  {
    hide ValidUtf8, Sanitize, Leq;
    if ps != [] {
      var rest := ps[1..];
      DecodedHolds(rest);
      SanitizeValid(ps[0].1);
      DecodedKeys(rest);
      HoldsOneMore(DecodePairs(rest), ps);
    }
  }

  lemma HoldsOneMore(m: map<Bytes, Json>, ps: seq<(Bytes, Bytes)>)
    requires ps != [] && Holds(m, ps[1..]) && forall j :: 0 < j < |ps| ==> ps[0].0 != ps[j].0
    requires forall k :: k in m <==> k in KeysOf(ps[1..])
    ensures Holds(m[ps[0].0 := JString(ps[0].1)], ps)
    ensures |m[ps[0].0 := JString(ps[0].1)].Keys| == |m.Keys| + 1
  {
    var rest, k := ps[1..], ps[0].0;
    var m' := m[k := JString(ps[0].1)];
    assert m'.Keys == m.Keys + {k};
    forall i | 0 <= i < |ps| ensures ps[i].0 in m' && m'[ps[i].0] == JString(ps[i].1) {
      if i > 0 { assert rest[i - 1] == ps[i]; }
    }
  }

  lemma {:induction false} PairsAreFields(v: Json, m: map<Bytes, Json>, ps: seq<(Bytes, Bytes)>)
    requires Holds(m, ps) && forall k :: k in m ==> m[k] < v
    ensures EncodePairs(ps) == EncodeFields(v, m, KeysOf(ps))
  {
    hide Quote;
    if ps != [] {
      var rest := ps[1..];
      assert Holds(m, rest) by {
        forall i | 0 <= i < |rest| ensures rest[i].0 in m && m[rest[i].0] == JString(rest[i].1) {
          assert rest[i] == ps[i + 1];
        }
      }
      PairsAreFields(v, m, rest);
      assert KeysOf(ps)[1..] == KeysOf(rest);
    }
  }

  /** The members written one by one are the object json.Marshal writes. */
  lemma PairsAreCompact(ps: seq<(Bytes, Bytes)>)
    requires InKeyOrder(ps)
    ensures "{" + EncodePairs(ps) + "}" == Compact(DecodePairs(ps))
  {
    hide EncodePairs, EncodeFields, DecodePairs, Sorted, Leq, ValidUtf8;
    var m := DecodePairs(ps);
    DecodedHolds(ps);
    DecodedKeys(ps);
    PairsAreFields(JObject(m), m, ps);
    SortedIsUnique(KeysOf(ps), m.Keys);
  }

  // ---------------------------------------------------------------- the result envelope

  /** The members of a marshalled result. */
  function Envelope(r: Result): (m: map<Bytes, Json>) {
    map["commandId" := JString(r.commandId), "success" := JBool(r.success), "stdout" := JString(r.stdout.text),
        "stderr" := JString(r.stderr), "durationMs" := JNumber(SignedDecimal(r.durationMs))]
  }

  const ENVELOPE_KEYS: seq<Bytes> := ["commandId", "durationMs", "stderr", "stdout", "success"]

  lemma EnvelopeOrder()
    ensures Leq("commandId", "durationMs") && Leq("durationMs", "stderr")
    ensures Leq("stderr", "stdout") && Leq("stdout", "success")
  {
    assert Leq("err", "out");
    assert Leq("derr", "dout");
    assert Leq("tderr", "tdout");
    assert Leq("tdout", "uccess");
  }

  lemma EnvelopeSorted(r: Result)
    ensures Sorted(Envelope(r).Keys) == ENVELOPE_KEYS
  {
    hide Sorted, Leq;
    EnvelopeOrder();
    var m := Envelope(r);
    assert m.Keys == {"commandId", "success", "stdout", "stderr", "durationMs"};
    ChainSorted(ENVELOPE_KEYS);
    assert |m.Keys| == 5;
    SortedIsUnique(ENVELOPE_KEYS, m.Keys);
  }

  lemma FieldsHead(v: Json, m: map<Bytes, Json>, k: Bytes, rest: seq<Bytes>)
    requires forall x :: x in [k] + rest ==> x in m && m[x] < v
    ensures |EncodeFields(v, m, [k] + rest)| ==
            |Quote(k)| + 1 + |Encode(m[k])| + (if rest == [] then 0 else 1) + |EncodeFields(v, m, rest)|
  {
    hide Quote, Encode;
    assert ([k] + rest)[1..] == rest;
  }

  lemma NoFields(v: Json, m: map<Bytes, Json>)
    ensures EncodeFields(v, m, []) == ""
  {
  }

  lemma EnvelopeLength(v: Json, m: map<Bytes, Json>, a: Bytes, b: Bytes, c: Bytes, d: Bytes, e: Bytes)
    requires forall x :: x in [a, b, c, d, e] ==> x in m && m[x] < v
    ensures |EncodeFields(v, m, [a, b, c, d, e])| ==
            9 + |Quote(a)| + |Encode(m[a])| + |Quote(b)| + |Encode(m[b])| + |Quote(c)| + |Encode(m[c])| +
            |Quote(d)| + |Encode(m[d])| + |Quote(e)| + |Encode(m[e])|
  {
    hide Quote, Encode, EncodeFields;
    NoFields(v, m);
    FieldsHead(v, m, e, []);
    FieldsHead(v, m, d, [e]);
    FieldsHead(v, m, c, [d, e]);
    FieldsHead(v, m, b, [c, d, e]);
    FieldsHead(v, m, a, [b, c, d, e]);
    assert [e] + [] == [e] && [d] + [e] == [d, e] && [c] + [d, e] == [c, d, e];
    assert [b] + [c, d, e] == [b, c, d, e] && [a] + [b, c, d, e] == [a, b, c, d, e];
  }

  lemma {:induction false} LettersUnescaped(s: Bytes)
    requires forall i :: 0 <= i < |s| ==> 'A' <= s[i] <= 'Z' || 'a' <= s[i] <= 'z'
    ensures Escape(s) == s
  {
    if s != "" {
      LettersUnescaped(s[1..]);
      assert s == s[..1] + s[1..];
    }
  }

  lemma KeyLength(k: Bytes)
    requires forall i :: 0 <= i < |k| ==> 'A' <= k[i] <= 'Z' || 'a' <= k[i] <= 'z'
    ensures |Quote(k)| == |k| + 2
  {
    hide Escape;
    LettersUnescaped(k);
  }

  lemma MarshalLength(r: Result)
    ensures |Marshal(r)| ==
            59 + |Quote(r.commandId)| + (if r.success then 4 else 5) + |Quote(r.stdout.text)| + |Quote(r.stderr)| +
            |SignedDecimal(r.durationMs)|
  {
    hide Quote, SignedDecimal;
  }

  lemma EnvelopeValues(r: Result)
    ensures var m := Envelope(r);
            && |Encode(m["commandId"])| == |Quote(r.commandId)| && |Encode(m["stdout"])| == |Quote(r.stdout.text)|
            && |Encode(m["stderr"])| == |Quote(r.stderr)| && |Encode(m["success"])| == (if r.success then 4 else 5)
            && |Encode(m["durationMs"])| == |SignedDecimal(r.durationMs)|
  {
    hide Quote, SignedDecimal;
  }

  lemma CompactLength(r: Result)
    ensures var m := Envelope(r);
            |Compact(m)| ==
            11 + |Quote("commandId")| + |Encode(m["commandId"])| + |Quote("durationMs")| + |Encode(m["durationMs"])| +
            |Quote("stderr")| + |Encode(m["stderr"])| + |Quote("stdout")| + |Encode(m["stdout"])| +
            |Quote("success")| + |Encode(m["success"])|
  {
    hide Quote, EncodeFields, Sorted;
    EnvelopeSorted(r);
    EnvelopeLength(JObject(Envelope(r)), Envelope(r), "commandId", "durationMs", "stderr", "stdout", "success");
  }

  /** The size measured against the frame is that of the object with exactly these five members. */
  lemma MarshalIsJson(r: Result)
    ensures |Marshal(r)| == |Compact(Envelope(r))|
  {
    hide Marshal, Compact, Quote, Encode, SignedDecimal;
    MarshalLength(r);
    EnvelopeValues(r);
    CompactLength(r);
    KeyLength("commandId");
    KeyLength("durationMs");
    KeyLength("stderr");
    KeyLength("stdout");
    KeyLength("success");
  }
}

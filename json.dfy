/**
 * Parsed JSON documents as the manifest transform sees them. Objects keep
 * their members in insertion order, as JavaScript objects do for keys that
 * are not array indices (array-index keys are listed first, in numeric order,
 * which this model does not cover). Numbers are modelled as integers.
 */
module Json {
  import opened Wrappers

  type Member = (string, JsonValue)

  datatype JsonValue =
    | JNull
    | JBool(b: bool)
    | JNumber(n: int)
    | JString(str: string)
    | JArray(items: seq<JsonValue>)
    | JObject(members: seq<Member>)

  /** The member names of an object, in order. */
  function Keys(ms: seq<Member>): (ks: seq<string>)
    ensures |ks| == |ms| && forall i :: 0 <= i < |ms| ==> ks[i] == ms[i].0
  {
    if ms == [] then [] else [ms[0].0] + Keys(ms[1..])
  }

  /** No member name appears twice (what `JSON.parse` produces). */
  predicate UniqueKeys(ms: seq<Member>)
  {
    var ks := Keys(ms);
    forall i, j :: 0 <= i < j < |ks| ==> ks[i] != ks[j]
  }

  /** Reading `obj[key]`: the value of the member named `key`, or None for `undefined`. */
  function Get(ms: seq<Member>, key: string): (r: Option<JsonValue>)
    ensures r.None? <==> key !in Keys(ms)
    ensures r.Some? ==> (key, r.value) in ms
  {
    if ms == [] then None
    else if ms[0].0 == key then Some(ms[0].1)
    else Get(ms[1..], key)
  }

  /** The numeric value of a string of decimal digits. */
  function DecimalValue(s: string): nat
    requires forall i :: 0 <= i < |s| ==> '0' <= s[i] <= '9'
  {
    if s == [] then 0 else DecimalValue(s[..|s| - 1]) * 10 + (s[|s| - 1] as int - '0' as int)
  }

  /**
   * A canonical array index such as "0" or "42", below 2^32 - 1: a JavaScript
   * object lists such keys before all others, in numeric order.
   */
  predicate ArrayIndexKey(key: string)
  {
    && |key| > 0
    && (forall i :: 0 <= i < |key| ==> '0' <= key[i] <= '9')
    && (key[0] != '0' || |key| == 1)
    && DecimalValue(key) < 0xFFFF_FFFF
  }

  /** The names of an object whose first member is `m`. */
  lemma KeysCons(m: Member, rest: seq<Member>)
    ensures Keys([m] + rest) == [m.0] + Keys(rest)
  {
    assert ([m] + rest)[1..] == rest;
  }

  /** Lookup in an object whose first member is `m`. */
  lemma GetCons(m: Member, rest: seq<Member>, key: string)
    ensures Get([m] + rest, key) == if m.0 == key then Some(m.1) else Get(rest, key)
  {
    assert ([m] + rest)[1..] == rest;
  }

  /**
   * The assignment `obj[key] = v` for a key that is not an array index: an
   * existing member keeps its place and takes the new value; a new member is
   * added after all existing ones.
   */
  function SetMember(ms: seq<Member>, key: string, v: JsonValue): (r: seq<Member>)
    requires !ArrayIndexKey(key)
    ensures Get(r, key) == Some(v)
    ensures forall k :: k != key ==> Get(r, k) == Get(ms, k)
    ensures Keys(r) == if key in Keys(ms) then Keys(ms) else Keys(ms) + [key]
  {
    if ms == [] then [(key, v)]
    else if ms[0].0 == key then
      OverwriteHead(ms, v);
      [(key, v)] + ms[1..]
    else
      var rest := SetMember(ms[1..], key, v);
      KeepHead(ms, rest, key, v);
      [ms[0]] + rest
  }

  /** Assignment to the first member's name replaces that member's value. */
  lemma OverwriteHead(ms: seq<Member>, v: JsonValue)
    requires ms != []
    ensures var key, r := ms[0].0, [(ms[0].0, v)] + ms[1..];
      && Get(r, key) == Some(v)
      && (forall k :: k != key ==> Get(r, k) == Get(ms, k))
      && Keys(r) == Keys(ms)
  {
    var key, r := ms[0].0, [(ms[0].0, v)] + ms[1..];
    assert r[1..] == ms[1..];
    assert Keys(r) == [key] + Keys(ms[1..]);
    assert Keys(ms) == [key] + Keys(ms[1..]);
    forall k | k != key ensures Get(r, k) == Get(ms, k) {
      GetCons((key, v), ms[1..], k);
    }
    GetCons((key, v), ms[1..], key);
  }

  /** Assignment to a name other than the first member's keeps the first member. */
  lemma KeepHead(ms: seq<Member>, rest: seq<Member>, key: string, v: JsonValue)
    requires ms != [] && ms[0].0 != key
    requires Get(rest, key) == Some(v)
    requires forall k :: k != key ==> Get(rest, k) == Get(ms[1..], k)
    requires Keys(rest) == if key in Keys(ms[1..]) then Keys(ms[1..]) else Keys(ms[1..]) + [key]
    ensures var r := [ms[0]] + rest;
      && Get(r, key) == Some(v)
      && (forall k :: k != key ==> Get(r, k) == Get(ms, k))
      && Keys(r) == if key in Keys(ms) then Keys(ms) else Keys(ms) + [key]
  {
    var r := [ms[0]] + rest;
    assert ms == [ms[0]] + ms[1..];
    forall k | k != key ensures Get(r, k) == Get(ms, k) {
      GetCons(ms[0], rest, k);
      GetCons(ms[0], ms[1..], k);
    }
    GetCons(ms[0], rest, key);
    KeepHeadKeys(ms[0], ms[1..], rest, key);
  }

  /** The names after assigning to a name other than the first member's. */
  lemma KeepHeadKeys(m: Member, tail: seq<Member>, rest: seq<Member>, key: string)
    requires m.0 != key
    requires Keys(rest) == if key in Keys(tail) then Keys(tail) else Keys(tail) + [key]
    ensures Keys([m] + rest) == if key in Keys([m] + tail) then Keys([m] + tail) else Keys([m] + tail) + [key]
  {
    KeysCons(m, rest);
    KeysCons(m, tail);
    if key !in Keys(tail) {
      assert [m.0] + (Keys(tail) + [key]) == ([m.0] + Keys(tail)) + [key];
    }
  }

  /** Assignment keeps member names unique. */
  lemma SetMemberKeepsUnique(ms: seq<Member>, key: string, v: JsonValue)
    requires !ArrayIndexKey(key)
    requires UniqueKeys(ms)
    ensures UniqueKeys(SetMember(ms, key, v))
  {
    var ks, ks' := Keys(ms), Keys(SetMember(ms, key, v));
    if key !in ks {
      assert ks' == ks + [key];
      forall i, j | 0 <= i < j < |ks'| ensures ks'[i] != ks'[j] {
        if j == |ks| {
          assert ks'[i] == ks[i];
        }
      }
    }
  }

  /** A value JavaScript's `??` operator treats as absent: `undefined` or `null`. */
  predicate Nullish(o: Option<JsonValue>)
  {
    o.None? || o.value == JNull
  }

  /** The logical nullish assignment `obj[key] ??= v`. */
  function AssignIfNullish(ms: seq<Member>, key: string, v: JsonValue): (r: seq<Member>)
    requires !ArrayIndexKey(key)
    ensures Get(r, key) == if Nullish(Get(ms, key)) then Some(v) else Get(ms, key)
    ensures forall k :: k != key ==> Get(r, k) == Get(ms, k)
    ensures !Nullish(Get(ms, key)) ==> r == ms
    ensures Keys(r) == if key in Keys(ms) then Keys(ms) else Keys(ms) + [key]
  {
    if Nullish(Get(ms, key)) then SetMember(ms, key, v) else ms
  }

  /** Assigning a member the value it already has changes nothing. */
  lemma {:induction false} SetMemberSameValue(ms: seq<Member>, key: string, v: JsonValue)
    requires !ArrayIndexKey(key) && Get(ms, key) == Some(v)
    ensures SetMember(ms, key, v) == ms
  {
    if ms != [] && ms[0].0 != key {
      SetMemberSameValue(ms[1..], key, v);
    }
  }

  /**
   * A second `??=` with the same value is a no-op; with `null` as the value
   * the second one assigns again, the value the member already has.
   */
  lemma AssignIfNullishIdempotent(ms: seq<Member>, key: string, v: JsonValue)
    requires !ArrayIndexKey(key)
    ensures AssignIfNullish(AssignIfNullish(ms, key, v), key, v) == AssignIfNullish(ms, key, v)
  {
    if Nullish(Get(ms, key)) {
      SetMemberSameValue(SetMember(ms, key, v), key, v);
    }
  }
}

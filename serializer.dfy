/** serialize_message: turns HumanMessage objects inside a chunk into plain
    two-field records, descending into dicts and lists, and leaves every other
    value as it is. */
module Serializer {
  import opened Values

  /** The record a HumanMessage with content `c` becomes. */
  function HumanRecord(c: string): Value {
    Dict(map["type" := Str("HumanMessage"), "content" := Str(c)])
  }

  function Serialize(v: Value): (r: Value)
    ensures r.Dict? <==> v.Dict? || v.Human?
    ensures r.List? <==> v.List?
    ensures !v.Human? && !v.Dict? && !v.List? ==> r == v
    ensures HumanFree(r)
  {
    match v
    case Human(c) => HumanRecord(c)
    case Dict(m) => Dict(map k | k in m :: Serialize(m[k]))
    case List(xs) => List(seq(|xs|, i requires 0 <= i < |xs| => Serialize(xs[i])))
    case _ => v
  }

  /** A HumanMessage becomes exactly the record with the two fields "type"
      and "content". */
  lemma SerializeHuman(c: string)
    ensures Serialize(Human(c)).Dict?
    ensures Serialize(Human(c)).entries.Keys == {"type", "content"}
    ensures Serialize(Human(c)).entries["type"] == Str("HumanMessage")
    ensures Serialize(Human(c)).entries["content"] == Str(c)
  {
  }

  /** A dict keeps its key set, and each value is serialised under its key. */
  lemma SerializeDictKeywise(m: map<string, Value>)
    ensures Serialize(Dict(m)).Dict?
    ensures Serialize(Dict(m)).entries.Keys == m.Keys
    ensures forall k :: k in m ==> Serialize(Dict(m)).entries[k] == Serialize(m[k])
  {
  }

  /** A list keeps its length and order, and element i is serialised in place. */
  lemma SerializeListElementwise(xs: seq<Value>)
    ensures Serialize(List(xs)).List?
    ensures |Serialize(List(xs)).items| == |xs|
    ensures forall i :: 0 <= i < |xs| ==> Serialize(List(xs)).items[i] == Serialize(xs[i])
  {
  }

  /** A tuple is not a list to isinstance, so it passes through unchanged,
      HumanMessage and all: a tuple with a HumanMessage element (at `i`) is
      then not JSON-serialisable. */
  lemma TupleKeepsHuman(xs: seq<Value>, i: nat)
    requires i < |xs| && xs[i].Human?
    ensures Serialize(Tuple(xs)) == Tuple(xs)
    ensures !JsonSafe(Serialize(Tuple(xs)))
  {
    assert !JsonSafe(xs[i]);
  }

  /** The fixed points of the serialiser are exactly the values in which it
      finds no HumanMessage. */
  lemma {:induction false} SerializeFixedIff(v: Value)
    ensures Serialize(v) == v <==> HumanFree(v)
  {
    match v
    case Human(c) =>
    case Dict(m) =>
      forall k | k in m ensures Serialize(m[k]) == m[k] <==> HumanFree(m[k]) {
        SerializeFixedIff(m[k]);
      }
      if HumanFree(v) {
        assert (map k | k in m :: Serialize(m[k])) == m;
      } else {
        var k :| k in m && !HumanFree(m[k]);
        assert Serialize(v).entries[k] != m[k];
      }
    case List(xs) =>
      forall i | 0 <= i < |xs| ensures Serialize(xs[i]) == xs[i] <==> HumanFree(xs[i]) {
        SerializeFixedIff(xs[i]);
      }
      if HumanFree(v) {
        assert seq(|xs|, i requires 0 <= i < |xs| => Serialize(xs[i])) == xs;
      } else {
        var i :| 0 <= i < |xs| && !HumanFree(xs[i]);
        assert Serialize(v).items[i] != xs[i];
      }
    case _ =>
  }

  /** Serialising an already serialised value changes nothing. */
  lemma {:induction false} SerializeIdempotent(v: Value)
    ensures Serialize(Serialize(v)) == Serialize(v)
  {
    SerializeFixedIff(Serialize(v));
  }

  /** A plain structure that json.dumps already accepts is returned unchanged. */
  lemma {:induction false} SerializeKeepsJsonSafe(v: Value)
    requires JsonSafe(v)
    ensures Serialize(v) == v
  {
    JsonSafeIsHumanFree(v);
    SerializeFixedIff(v);
  }

  /** The serialiser's output is JSON-serialisable exactly when its input is
      convertible: no other object anywhere and nothing non-serialisable
      inside a tuple. */
  lemma {:induction false} SerializeJsonSafeIff(v: Value)
    ensures JsonSafe(Serialize(v)) <==> Convertible(v)
  {
    match v
    case Human(c) =>
      assert HumanRecord(c).entries.Keys == {"type", "content"};
    case Dict(m) =>
      forall k | k in m ensures JsonSafe(Serialize(m[k])) <==> Convertible(m[k]) {
        SerializeJsonSafeIff(m[k]);
      }
      var r := Serialize(v).entries;
      assert r == map k | k in m :: Serialize(m[k]);
      if !Convertible(v) {
        var k :| k in m && !Convertible(m[k]);
        assert k in r && !JsonSafe(r[k]);
      }
    case List(xs) =>
      forall i | 0 <= i < |xs| ensures JsonSafe(Serialize(xs[i])) <==> Convertible(xs[i]) {
        SerializeJsonSafeIff(xs[i]);
      }
      var r := Serialize(v).items;
      assert |r| == |xs| && forall i :: 0 <= i < |xs| ==> r[i] == Serialize(xs[i]);
      if !Convertible(v) {
        var i :| 0 <= i < |xs| && !Convertible(xs[i]);
        assert !JsonSafe(r[i]);
      }
    case _ =>
  }
}

/**
 * Documents as the database driver hands them to the service: JSON-like
 * values that may also hold ObjectIds, and the `serialize_mongo_doc` helper
 * the consultation and category routers use to make them JSON-safe.
 */
module Bson {
  import opened Outcomes
  import Text

  /** A database identifier; `str(oid)` is its hex text. */
  datatype ObjectId = ObjectId(hex: string)

  /** A dictionary is an ordered list of entries (Python dicts keep insertion order). */
  type Entries = seq<(string, Value)>

  datatype Value =
    | Null
    | Bool(b: bool)
    | Int(i: int)
    | Str(s: string)
    | Oid(oid: ObjectId)
    | List(items: seq<Value>)
    | Dict(entries: Entries)

  /** Python truthiness: None, False, 0, "", [] and {} are false. */
  predicate Truthy(v: Value)
  {
    match v
    case Null => false
    case Bool(b) => b
    case Int(i) => i != 0
    case Str(s) => s != []
    case Oid(_) => true
    case List(items) => items != []
    case Dict(entries) => entries != []
  }

  function Keys(e: Entries): (ks: seq<string>)
    ensures |ks| == |e| && forall i :: 0 <= i < |e| ==> ks[i] == e[i].0
  {
    seq(|e|, i requires 0 <= i < |e| => e[i].0)
  }

  predicate HasKey(e: Entries, k: string)
  {
    k in Keys(e)
  }

  /** Python dict keys are distinct. */
  ghost predicate DistinctKeys(e: Entries)
  {
    forall i, j :: 0 <= i < j < |e| ==> e[i].0 != e[j].0
  }

  /** Position of key `k` (the first, and for a dict the only, one). */
  function IndexOf(e: Entries, k: string): (i: nat)
    requires HasKey(e, k)
    ensures i < |e| && e[i].0 == k && forall j :: 0 <= j < i ==> e[j].0 != k
  {
    if e[0].0 == k then 0 else IndexOf(e[1..], k) + 1
  }

  /** `d.get(k)`. */
  function Get(e: Entries, k: string): (r: Option<Value>)
    ensures r.Some? <==> HasKey(e, k)
    ensures r.Some? ==> r.value == e[IndexOf(e, k)].1
  {
    if HasKey(e, k) then Some(e[IndexOf(e, k)].1) else None
  }

  /** `d[k] = v`: an existing key keeps its place, a new key goes last. */
  function Set(e: Entries, k: string, v: Value): (r: Entries)
    ensures HasKey(e, k) ==> r == e[IndexOf(e, k) := (k, v)]
    ensures !HasKey(e, k) ==> r == e + [(k, v)]
  {
    if HasKey(e, k) then e[IndexOf(e, k) := (k, v)] else e + [(k, v)]
  }

  /** The first entry with key `k` is what `d.get(k)` finds. */
  lemma GetFirst(e: Entries, k: string, i: nat)
    requires i < |e| && e[i].0 == k && forall j :: 0 <= j < i ==> e[j].0 != k
    ensures Get(e, k) == Some(e[i].1)
  {
    assert Keys(e)[i] == k;
  }

  /** A key no entry carries is absent. */
  lemma GetMissing(e: Entries, k: string)
    requires forall j :: 0 <= j < |e| ==> e[j].0 != k
    ensures Get(e, k) == None
  {
  }

  /** Setting a key keeps every other key's value and makes the key present with `v`. */
  lemma SetGet(e: Entries, k: string, v: Value, k2: string)
    ensures Get(Set(e, k, v), k) == Some(v)
    ensures k2 != k ==> Get(Set(e, k, v), k2) == Get(e, k2)
  {
    var r := Set(e, k, v);
    assert Keys(r) == Keys(e) || Keys(r) == Keys(e) + [k];
    if HasKey(e, k) {
      assert Keys(r) == Keys(e);
    } else {
      assert Keys(r) == Keys(e) + [k];
    }
    if k2 != k && HasKey(e, k2) {
      var i := IndexOf(e, k2);
      assert r[i].0 == k2 && forall j :: 0 <= j < i ==> r[j].0 == e[j].0;
      assert Keys(r)[i] == k2;
    }
  }

  /**
   * Python's `needle in v` for a string needle: substring test on a string,
   * element test on a list, key test on a dict; any other value raises
   * `TypeError`, written `None`.
   */
  function PyContains(needle: string, v: Value): (r: Option<bool>)
    ensures r.Some? <==> v.Str? || v.List? || v.Dict?
  {
    match v
    case Str(s) => Some(Text.Contains(s, needle))
    case List(items) => Some(Str(needle) in items)
    case Dict(e) => Some(HasKey(e, needle))
    case _ => None
  }

  /** A document with no ObjectId left as a dictionary value, at any depth. */
  predicate NoOidFields(v: Value)
  {
    match v
    case List(items) => forall i :: 0 <= i < |items| ==> NoOidFields(items[i])
    case Dict(e) => forall i :: 0 <= i < |e| ==> !e[i].1.Oid? && NoOidFields(e[i].1)
    case _ => true
  }

  /** `serialize_mongo_doc`: the value stored under a dictionary key. */
  function SerializeField(v: Value): (r: Value)
    ensures !r.Oid?
    decreases v, 1
  {
    match v
    case Oid(o) => Str(o.hex)
    case List(_) => Serialize(v)
    case Dict(_) => Serialize(v)
    case _ => v
  }

  /** `serialize_mongo_doc(doc)`. */
  function Serialize(v: Value): (r: Value)
    ensures v.Dict? ==> r.Dict?
    ensures v.List? ==> r.List?
    decreases v, 0
  {
    match v
    case Dict(e) => Dict(seq(|e|, i requires 0 <= i < |e| => (e[i].0, SerializeField(e[i].1))))
    case List(items) => List(seq(|items|, i requires 0 <= i < |items| => Serialize(items[i])))
    case _ => v
  }

  /**
   * Serialising keeps the shape: a dict keeps its keys in order, an ObjectId
   * under a key becomes its hex string, a list keeps its length and an
   * ObjectId that is a list element, or the whole document, is left as it is.
   */
  lemma SerializeShape(v: Value)
    ensures v.Dict? ==> Serialize(v).Dict? && Keys(Serialize(v).entries) == Keys(v.entries)
    ensures v.Dict? ==> forall i :: 0 <= i < |v.entries| && v.entries[i].1.Oid? ==>
      Serialize(v).entries[i].1 == Str(v.entries[i].1.oid.hex)
    ensures v.List? ==> Serialize(v).List? && |Serialize(v).items| == |v.items|
    ensures v.List? ==> forall i :: 0 <= i < |v.items| && v.items[i].Oid? ==>
      Serialize(v).items[i] == v.items[i]
    ensures !v.Dict? && !v.List? ==> Serialize(v) == v
  {
  }

  /** After serialising, no dictionary anywhere holds an ObjectId value. */
  lemma {:induction false} SerializeRemovesOidFields(v: Value)
    ensures NoOidFields(Serialize(v))
  {
    match v
    case Dict(e) =>
      forall i | 0 <= i < |e| ensures NoOidFields(SerializeField(e[i].1)) {
        if e[i].1.List? || e[i].1.Dict? {
          SerializeRemovesOidFields(e[i].1);
        }
      }
    case List(items) =>
      forall i | 0 <= i < |items| ensures NoOidFields(Serialize(items[i])) {
        SerializeRemovesOidFields(items[i]);
      }
    case _ =>
  }

  /** Serialising twice is the same as serialising once. */
  lemma {:induction false} SerializeIdempotent(v: Value)
    ensures Serialize(Serialize(v)) == Serialize(v)
  {
    match v
    case Dict(e) =>
      var s := Serialize(v).entries;
      forall i | 0 <= i < |e| ensures SerializeField(s[i].1) == s[i].1 {
        assert s[i].1 == SerializeField(e[i].1);
        if e[i].1.List? || e[i].1.Dict? {
          SerializeIdempotent(e[i].1);
          assert SerializeField(Serialize(e[i].1)) == Serialize(Serialize(e[i].1));
        }
      }
    case List(items) =>
      var s := Serialize(v).items;
      forall i | 0 <= i < |items| ensures Serialize(s[i]) == s[i] {
        SerializeIdempotent(items[i]);
      }
    case _ =>
  }
}

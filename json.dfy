/** Values as `json.loads` produces them: Python's None, bool, numbers, str,
    list and dict.  A dict keeps its keys in insertion order, so an object is
    an ordered list of members; `json.loads` never yields a key twice, and
    lookup takes the first member with the key. */
module JsonValues {
  import opened Wrappers

  datatype Json =
    | JNull
    | JBool(b: bool)
    | JNum(n: real)
    | JStr(s: string)
    | JArr(items: seq<Json>)
    | JObj(fields: seq<Member>)

  datatype Member = Member(key: string, value: Json)

  /** Python truthiness: None, False, 0, "", [] and {} are false. */
  predicate Truthy(j: Json)
  {
    match j
    case JNull => false
    case JBool(b) => b
    case JNum(n) => n != 0.0
    case JStr(s) => s != []
    case JArr(items) => items != []
    case JObj(fields) => fields != []
  }

  /** What `for x in v` visits: a list's elements, a string's
      characters (each a one-character string), a dict's keys.  Other values
      cannot be iterated. */
  function Iterated(v: Json): (r: Option<seq<Json>>)
    ensures r.Some? <==> v.JArr? || v.JStr? || v.JObj?
    ensures r.Some? ==> (|r.value| > 0 <==> Truthy(v))
    ensures v.JArr? ==> r == Some(v.items)
    ensures v.JStr? ==> |r.value| == |v.s| && forall i :: 0 <= i < |v.s| ==> r.value[i] == JStr([v.s[i]])
    ensures v.JObj? ==> |r.value| == |v.fields| && forall i :: 0 <= i < |v.fields| ==> r.value[i] == JStr(v.fields[i].key)
  {
    match v
    case JArr(items) => Some(items)
    case JStr(s) => Some(seq(|s|, i requires 0 <= i < |s| => JStr([s[i]])))
    case JObj(fields) => Some(seq(|fields|, i requires 0 <= i < |fields| => JStr(fields[i].key)))
    case _ => None
  }

  /** `key in d` for a dict. */
  predicate HasKey(fields: seq<Member>, key: string)
  {
    exists i :: 0 <= i < |fields| && fields[i].key == key
  }

  /** `d.get(key)`: the value of the first member named `key`. */
  function Lookup(fields: seq<Member>, key: string): (r: Option<Json>)
    ensures r.Some? <==> HasKey(fields, key)
  {
    if fields == [] then None
    else if fields[0].key == key then Some(fields[0].value)
    else
      assert forall i :: 1 <= i < |fields| ==> fields[i] == fields[1..][i - 1];
      Lookup(fields[1..], key)
  }

  /** Lookup finds the first member with the key. */
  lemma {:induction false} LookupAt(fields: seq<Member>, i: nat, key: string)
    requires i < |fields| && fields[i].key == key
    requires forall j :: 0 <= j < i ==> fields[j].key != key
    ensures Lookup(fields, key) == Some(fields[i].value)
  {
    if i > 0 {
      LookupAt(fields[1..], i - 1, key);
    }
  }

  /** `d[key] = value`: an existing key keeps its position, a new key goes last. */
  function Update(fields: seq<Member>, key: string, value: Json): (r: seq<Member>)
    ensures Lookup(r, key) == Some(value)
    ensures forall k :: k != key ==> Lookup(r, k) == Lookup(fields, k)
  {
    if fields == [] then [Member(key, value)]
    else if fields[0].key == key then [Member(key, value)] + fields[1..]
    else [fields[0]] + Update(fields[1..], key, value)
  }

  /** Assigning a key the value it already has changes nothing. */
  lemma {:induction false} UpdateSame(fields: seq<Member>, key: string, value: Json)
    requires Lookup(fields, key) == Some(value)
    ensures Update(fields, key, value) == fields
  {
    if fields != [] && fields[0].key != key {
      UpdateSame(fields[1..], key, value);
    }
  }
}

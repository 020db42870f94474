/** The property fix-up `prune_schema` applies to the pruned schema the
    language model returns, before validating it (src/graph_rag_compute.py:31-51).
    For every node and every edge whose "properties" value is truthy, the
    elements that iteration over that value yields are rebuilt into a new
    list: a bare string becomes a {name, type: "string"} object, a dict is
    kept, anything else is dropped. */
module Normalise {
  import opened Wrappers
  import opened JsonValues
  import Schema

  const DefaultType: string := "string"

  /** The object a bare property name becomes. */
  function NamedProperty(name: string): Json
  {
    JObj([Member("name", JStr(name)), Member("type", JStr(DefaultType))])
  }

  /** One element of a property list. */
  function FixProperty(p: Json): (r: Option<Json>)
    ensures r.Some? ==> r.value.JObj?
    ensures p.JObj? ==> r == Some(p)
  {
    match p
    case JStr(name) => Some(NamedProperty(name))
    case JObj(_) => Some(p)
    case _ => None
  }

  /** The rebuilt list `fixed_props`, in the order of the input. */
  function FixProperties(items: seq<Json>): (r: seq<Json>)
    ensures |r| <= |items|
    ensures forall k :: 0 <= k < |r| ==> r[k].JObj?
    ensures (forall k :: 0 <= k < |items| ==> items[k].JObj?) ==> r == items
  {
    if items == [] then []
    else
      var init := items[..|items| - 1];
      assert forall k :: 0 <= k < |init| ==> init[k] == items[k];
      match FixProperty(items[|items| - 1])
      case Some(p) => FixProperties(init) + [p]
      case None => FixProperties(init)
  }

  /** A node or an edge after the fix-up.  Only its "properties" member can
      change; an absent, null or otherwise falsy value is left as it is. */
  function FixEntity(e: Json): (r: Json)
    ensures r.JObj? <==> e.JObj?
    ensures e.JObj? ==> forall k :: k != "properties" ==> Lookup(r.fields, k) == Lookup(e.fields, k)
    ensures !e.JObj? || Lookup(e.fields, "properties") == None || !Truthy(Lookup(e.fields, "properties").value) ==> r == e
  {
    if e.JObj? then
      match Lookup(e.fields, "properties")
      case Some(v) =>
        if Truthy(v) && Iterated(v).Some? then
          JObj(Update(e.fields, "properties", JArr(FixProperties(Iterated(v).value))))
        else e
      case None => e
    else e
  }

  function FixEntities(es: seq<Json>): (r: seq<Json>)
    ensures |r| == |es|
  {
    seq(|es|, i requires 0 <= i < |es| => FixEntity(es[i]))
  }

  /** `for entity in data[key]: ...` when `data[key]` is a list. */
  function FixSection(fields: seq<Member>, key: string): (r: seq<Member>)
    ensures forall k :: k != key ==> Lookup(r, k) == Lookup(fields, k)
  {
    match Lookup(fields, key)
    case Some(JArr(es)) => Update(fields, key, JArr(FixEntities(es)))
    case _ => fields
  }

  /** The whole fix-up: nodes first, then edges.  Data that is not a dict,
      and sections that are not lists, are left for validation to reject. */
  function FixSchema(data: Json): Json
  {
    if data.JObj? then JObj(FixSection(FixSection(data.fields, "nodes"), "edges")) else data
  }

  // ---- the imperative rebuild, as the source runs it -----------------------

  /** The inner loop: builds `fixed_props` by appending. */
  method FixPropertyList(items: seq<Json>) returns (fixedProps: seq<Json>)
    ensures fixedProps == FixProperties(items)
  {
    fixedProps := [];
    for i := 0 to |items|
      invariant fixedProps == FixProperties(items[..i])
    {
      FixPropertiesPrefix(items, i);
      var prop := items[i];
      if prop.JStr? {
        fixedProps := fixedProps + [NamedProperty(prop.s)];
      } else if prop.JObj? {
        fixedProps := fixedProps + [prop];
      }
    }
    assert items[..|items|] == items;
  }

  /** The outer loop over one section ("nodes" or "edges"); each entity with
      a truthy "properties" value gets the rebuilt list in that member. */
  method FixSectionInPlace(fields: seq<Member>, key: string) returns (updated: seq<Member>)
    ensures updated == FixSection(fields, key)
  {
    updated := fields;
    var section := Lookup(fields, key);
    if section.Some? && section.value.JArr? {
      var entities := section.value.items;
      var fixedEntities: seq<Json> := [];
      for i := 0 to |entities|
        invariant |fixedEntities| == i
        invariant forall k :: 0 <= k < i ==> fixedEntities[k] == FixEntity(entities[k])
      {
        var entity := entities[i];
        if entity.JObj? {
          var props := Lookup(entity.fields, "properties");
          if props.Some? && Truthy(props.value) && Iterated(props.value).Some? {
            var fixedProps := FixPropertyList(Iterated(props.value).value);
            entity := JObj(Update(entity.fields, "properties", JArr(fixedProps)));
          }
        }
        fixedEntities := fixedEntities + [entity];
      }
      assert fixedEntities == FixEntities(entities);
      updated := Update(fields, key, JArr(fixedEntities));
    }
  }

  /** Lines 31-51: the fix-up of the parsed reply. */
  method NormaliseProperties(data: Json) returns (fixed: Json)
    ensures fixed == FixSchema(data)
  {
    fixed := data;
    if data.JObj? {
      var fields := FixSectionInPlace(data.fields, "nodes");
      fields := FixSectionInPlace(fields, "edges");
      fixed := JObj(fields);
    }
  }

  // ---- properties of the fix-up ------------------------------------------

  /** One more element of the input adds at most its own fix-up. */
  lemma FixPropertiesPrefix(items: seq<Json>, i: nat)
    requires i < |items|
    ensures FixProperties(items[..i + 1]) ==
      FixProperties(items[..i]) + (if FixProperty(items[i]).Some? then [FixProperty(items[i]).value] else [])
  {
    assert items[..i + 1][..i] == items[..i];
  }

  /** The rebuild keeps the input's order: it distributes over concatenation. */
  lemma {:induction false} FixPropertiesAppend(a: seq<Json>, b: seq<Json>)
    ensures FixProperties(a + b) == FixProperties(a) + FixProperties(b)
    decreases |b|
  {
    if b == [] {
      assert a + b == a;
    } else {
      var b' := b[..|b| - 1];
      assert (a + b)[..|a + b| - 1] == a + b';
      FixPropertiesAppend(a, b');
    }
  }

  /** Each element on its own: a string becomes a named property, a dict
      stays, anything else disappears. */
  lemma FixPropertiesSingle(p: Json)
    ensures p.JStr? ==> FixProperties([p]) == [NamedProperty(p.s)]
    ensures p.JObj? ==> FixProperties([p]) == [p]
    ensures !p.JStr? && !p.JObj? ==> FixProperties([p]) == []
  {
    assert [p][..0] == [];
  }

  /** An already normalised list is left as it is, so the rebuild is idempotent. */
  lemma FixPropertiesIdempotent(items: seq<Json>)
    ensures FixProperties(FixProperties(items)) == FixProperties(items)
  {
  }

  /** A list of bare names becomes a list of the same length whose k-th
      element is the k-th name with type "string". */
  lemma {:induction false} FixNamesPointwise(items: seq<Json>)
    requires forall k :: 0 <= k < |items| ==> items[k].JStr?
    ensures |FixProperties(items)| == |items|
    ensures forall k :: 0 <= k < |items| ==> FixProperties(items)[k] == NamedProperty(items[k].s)
  {
    if items != [] {
      var init := items[..|items| - 1];
      FixNamesPointwise(init);
    }
  }

  /** Bare property names validate as properties of type "string", in order:
      the default type comes from the pruner. */
  lemma BareNamesValidate(items: seq<Json>)
    requires forall k :: 0 <= k < |items| ==> items[k].JStr?
    ensures Schema.ListFromJson(FixProperties(items), Schema.PropertyFromJson).Success?
    ensures var ps := Schema.ListFromJson(FixProperties(items), Schema.PropertyFromJson).value;
      |ps| == |items| && forall k :: 0 <= k < |items| ==> ps[k] == Schema.Property(items[k].s, DefaultType)
  {
    FixNamesPointwise(items);
    var fixed := FixProperties(items);
    forall k | 0 <= k < |fixed|
      ensures Schema.PropertyFromJson(fixed[k]) == Success(Schema.Property(items[k].s, DefaultType))
    {
      NamedPropertyValidates(items[k].s);
    }
  }

  lemma NamedPropertyValidates(name: string)
    ensures Schema.PropertyFromJson(NamedProperty(name)) == Success(Schema.Property(name, DefaultType))
  {
    LookupAt(NamedProperty(name).fields, 0, "name");
    LookupAt(NamedProperty(name).fields, 1, "type");
  }

  /** Fixing an entity twice is fixing it once. */
  lemma FixEntityIdempotent(e: Json)
    ensures FixEntity(FixEntity(e)) == FixEntity(e)
  {
    if e.JObj? {
      var v := Lookup(e.fields, "properties");
      if v.Some? && Truthy(v.value) && Iterated(v.value).Some? {
        var fixed := FixProperties(Iterated(v.value).value);
        var f1 := Update(e.fields, "properties", JArr(fixed));
        assert Lookup(f1, "properties") == Some(JArr(fixed));
        if fixed != [] {
          FixPropertiesIdempotent(Iterated(v.value).value);
          UpdateSame(f1, "properties", JArr(fixed));
        }
      }
    }
  }

  lemma FixEntitiesIdempotent(es: seq<Json>)
    ensures FixEntities(FixEntities(es)) == FixEntities(es)
  {
    forall i | 0 <= i < |es| ensures FixEntities(FixEntities(es))[i] == FixEntities(es)[i] {
      FixEntityIdempotent(es[i]);
    }
  }

  /** A section whose entities are already fixed is left as it is. */
  lemma FixSectionStable(fields: seq<Member>, key: string, es: seq<Json>)
    requires Lookup(fields, key) == Some(JArr(FixEntities(es)))
    ensures FixSection(fields, key) == fields
  {
    FixEntitiesIdempotent(es);
    UpdateSame(fields, key, JArr(FixEntities(es)));
  }

  /** Normalising an already normalised reply changes nothing. */
  lemma FixSchemaIdempotent(data: Json)
    ensures FixSchema(FixSchema(data)) == FixSchema(data)
  {
    if data.JObj? {
      var f1 := FixSection(data.fields, "nodes");
      var f2 := FixSection(f1, "edges");
      var nodes := Lookup(data.fields, "nodes");
      if nodes.Some? && nodes.value.JArr? {
        assert Lookup(f2, "nodes") == Some(JArr(FixEntities(nodes.value.items)));
        FixSectionStable(f2, "nodes", nodes.value.items);
      } else {
        assert Lookup(f2, "nodes") == nodes;
      }
      var edges := Lookup(data.fields, "edges");
      assert Lookup(f1, "edges") == edges;
      if edges.Some? && edges.value.JArr? {
        assert Lookup(f2, "edges") == Some(JArr(FixEntities(edges.value.items)));
        FixSectionStable(f2, "edges", edges.value.items);
      } else {
        assert f2 == f1;
      }
    }
  }
}

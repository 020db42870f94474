/** The record types of src/schema.py and the validation that builds them from
    parsed JSON, the way pydantic does for these fields: every string field
    must hold a JSON string, optional property lists may be absent or null,
    and keys the model does not declare are ignored.  An edge's source label
    is read from the key "from". */
module Schema {
  import opened Wrappers
  import opened JsonValues

  /** A property carries both a name and a type tag; neither has a default. */
  datatype Property = Property(name: string, dataType: string)

  /** `properties == None` (absent or null) is distinct from an empty list. */
  datatype Node = Node(labelName: string, properties: Option<seq<Property>>)

  datatype Edge = Edge(labelName: string, from: string, to: string, properties: Option<seq<Property>>)

  datatype GraphSchema = GraphSchema(nodes: seq<Node>, edges: seq<Edge>)

  /** The query record; its description asks for a single line, which the
      type itself does not enforce. */
  datatype Query = Query(query: string)

  datatype Answer = Answer(response: string)

  predicate SingleLine(q: Query)
  {
    forall i :: 0 <= i < |q.query| ==> q.query[i] != '\n'
  }

  /** Nothing ties an edge's endpoints to the node labels of the schema. */
  predicate EdgesReferToNodes(g: GraphSchema)
  {
    forall e :: e in g.edges ==>
      (exists n :: n in g.nodes && n.labelName == e.from) && (exists n :: n in g.nodes && n.labelName == e.to)
  }

  /** A required string field. */
  function StringField(fields: seq<Member>, key: string): (r: Result<string, string>)
    ensures r.Success? <==> Lookup(fields, key).Some? && Lookup(fields, key).value.JStr?
    ensures r.Success? ==> Lookup(fields, key) == Some(JStr(r.value))
  {
    match Lookup(fields, key)
    case None => Failure(key + ": Field required")
    case Some(JStr(s)) => Success(s)
    case Some(_) => Failure(key + ": Input should be a valid string")
  }

  /** A list field validated element by element, failing on the first bad element. */
  function ListFromJson<T>(items: seq<Json>, element: Json -> Result<T, string>): (r: Result<seq<T>, string>)
    ensures r.Success? <==> forall i :: 0 <= i < |items| ==> element(items[i]).Success?
    ensures r.Success? ==> |r.value| == |items|
    ensures r.Success? ==> forall i :: 0 <= i < |items| ==> r.value[i] == element(items[i]).value
  {
    if items == [] then Success([])
    else
      match element(items[0])
      case Failure(e) => Failure(e)
      case Success(x) =>
        match ListFromJson(items[1..], element)
        case Failure(e) => Failure(e)
        case Success(xs) =>
          assert forall i :: 1 <= i < |items| ==> items[i] == items[1..][i - 1];
          Success([x] + xs)
  }

  function PropertyFromJson(j: Json): (r: Result<Property, string>)
    ensures r.Success? <==> j.JObj? && StringField(j.fields, "name").Success? && StringField(j.fields, "type").Success?
    ensures r.Success? ==> Lookup(j.fields, "name") == Some(JStr(r.value.name))
    ensures r.Success? ==> Lookup(j.fields, "type") == Some(JStr(r.value.dataType))
  {
    match j
    case JObj(fields) =>
      (match StringField(fields, "name")
       case Failure(e) => Failure(e)
       case Success(name) =>
         match StringField(fields, "type")
         case Failure(e) => Failure(e)
         case Success(t) => Success(Property(name, t)))
    case _ => Failure("Input should be a valid dictionary")
  }

  /** `list[Property] | None = None`: absent and null both give None. */
  function OptionalProperties(fields: seq<Member>): (r: Result<Option<seq<Property>>, string>)
    ensures (Lookup(fields, "properties") == None || Lookup(fields, "properties") == Some(JNull)) ==> r == Success(None)
    ensures r.Success? <==>
      match Lookup(fields, "properties")
      case None => true
      case Some(JNull) => true
      case Some(JArr(items)) => ListFromJson(items, PropertyFromJson).Success?
      case Some(_) => false
    ensures r.Success? && r.value.Some? ==>
      Lookup(fields, "properties").Some? && Lookup(fields, "properties").value.JArr? &&
      ListFromJson(Lookup(fields, "properties").value.items, PropertyFromJson) == Success(r.value.value)
    ensures Lookup(fields, "properties").Some? && Lookup(fields, "properties").value.JArr? && r.Success? ==>
      r.value == Some(ListFromJson(Lookup(fields, "properties").value.items, PropertyFromJson).value)
  {
    match Lookup(fields, "properties")
    case None => Success(None)
    case Some(JNull) => Success(None)
    case Some(JArr(items)) =>
      (match ListFromJson(items, PropertyFromJson)
       case Failure(e) => Failure(e)
       case Success(ps) => Success(Some(ps)))
    case Some(_) => Failure("properties: Input should be a valid list")
  }

  function NodeFromJson(j: Json): (r: Result<Node, string>)
    ensures r.Success? <==> j.JObj? && StringField(j.fields, "label").Success? && OptionalProperties(j.fields).Success?
    ensures r.Success? ==> j.JObj? && Lookup(j.fields, "label") == Some(JStr(r.value.labelName))
    ensures r.Success? ==> OptionalProperties(j.fields) == Success(r.value.properties)
  {
    match j
    case JObj(fields) =>
      (match StringField(fields, "label")
       case Failure(e) => Failure(e)
       case Success(name) =>
         match OptionalProperties(fields)
         case Failure(e) => Failure(e)
         case Success(props) => Success(Node(name, props)))
    case _ => Failure("Input should be a valid dictionary")
  }

  /** The source label comes from the key "from" (the alias of `from_`). */
  function EdgeFromJson(j: Json): (r: Result<Edge, string>)
    ensures r.Success? <==>
      j.JObj? && StringField(j.fields, "label").Success? && StringField(j.fields, "from").Success? &&
      StringField(j.fields, "to").Success? && OptionalProperties(j.fields).Success?
    ensures r.Success? ==> j.JObj? && Lookup(j.fields, "label") == Some(JStr(r.value.labelName))
    ensures r.Success? ==> Lookup(j.fields, "from") == Some(JStr(r.value.from))
    ensures r.Success? ==> Lookup(j.fields, "to") == Some(JStr(r.value.to))
    ensures r.Success? ==> OptionalProperties(j.fields) == Success(r.value.properties)
  {
    match j
    case JObj(fields) =>
      (match StringField(fields, "label")
       case Failure(e) => Failure(e)
       case Success(name) =>
         match StringField(fields, "from")
         case Failure(e) => Failure(e)
         case Success(source) =>
           match StringField(fields, "to")
           case Failure(e) => Failure(e)
           case Success(target) =>
             match OptionalProperties(fields)
             case Failure(e) => Failure(e)
             case Success(props) => Success(Edge(name, source, target, props)))
    case _ => Failure("Input should be a valid dictionary")
  }

  /** `GraphSchema(**data)`: both lists are required. */
  function GraphSchemaFromJson(j: Json): (r: Result<GraphSchema, string>)
    ensures r.Success? <==>
      j.JObj? &&
      Lookup(j.fields, "nodes").Some? && Lookup(j.fields, "nodes").value.JArr? &&
      Lookup(j.fields, "edges").Some? && Lookup(j.fields, "edges").value.JArr? &&
      ListFromJson(Lookup(j.fields, "nodes").value.items, NodeFromJson).Success? &&
      ListFromJson(Lookup(j.fields, "edges").value.items, EdgeFromJson).Success?
    ensures r.Success? ==>
      ListFromJson(Lookup(j.fields, "nodes").value.items, NodeFromJson) == Success(r.value.nodes) &&
      ListFromJson(Lookup(j.fields, "edges").value.items, EdgeFromJson) == Success(r.value.edges)
  {
    match j
    case JObj(fields) =>
      (match Lookup(fields, "nodes")
       case Some(JArr(ns)) =>
         (match Lookup(fields, "edges")
          case Some(JArr(es)) =>
            (match ListFromJson(ns, NodeFromJson)
             case Failure(e) => Failure(e)
             case Success(nodes) =>
               match ListFromJson(es, EdgeFromJson)
               case Failure(e) => Failure(e)
               case Success(edges) => Success(GraphSchema(nodes, edges)))
          case None => Failure("edges: Field required")
          case Some(_) => Failure("edges: Input should be a valid list"))
       case None => Failure("nodes: Field required")
       case Some(_) => Failure("nodes: Input should be a valid list"))
    case _ => Failure("Input should be a valid dictionary")
  }

  // Rendering back to JSON, keyed the way validation reads it ("from" for
  // the source label).  It is the inverse that the lemmas below check
  // validation against.

  function PropertyToJson(p: Property): Json
  {
    JObj([Member("name", JStr(p.name)), Member("type", JStr(p.dataType))])
  }

  function PropertiesToJson(ps: Option<seq<Property>>): Json
  {
    match ps
    case None => JNull
    case Some(list) => JArr(seq(|list|, i requires 0 <= i < |list| => PropertyToJson(list[i])))
  }

  function NodeToJson(n: Node): Json
  {
    JObj([Member("label", JStr(n.labelName)), Member("properties", PropertiesToJson(n.properties))])
  }

  function EdgeToJson(e: Edge): Json
  {
    JObj([Member("label", JStr(e.labelName)), Member("from", JStr(e.from)), Member("to", JStr(e.to)),
          Member("properties", PropertiesToJson(e.properties))])
  }

  function NodesToJson(nodes: seq<Node>): seq<Json>
  {
    seq(|nodes|, i requires 0 <= i < |nodes| => NodeToJson(nodes[i]))
  }

  function EdgesToJson(edges: seq<Edge>): seq<Json>
  {
    seq(|edges|, i requires 0 <= i < |edges| => EdgeToJson(edges[i]))
  }

  function SchemaToJson(g: GraphSchema): Json
  {
    JObj([Member("nodes", JArr(NodesToJson(g.nodes))), Member("edges", JArr(EdgesToJson(g.edges)))])
  }

  lemma PropertyRoundTrip(p: Property)
    ensures PropertyFromJson(PropertyToJson(p)) == Success(p)
  {
    var fields := PropertyToJson(p).fields;
    LookupAt(fields, 0, "name");
    LookupAt(fields, 1, "type");
  }

  lemma PropertiesRoundTrip(fields: seq<Member>, ps: Option<seq<Property>>)
    requires Lookup(fields, "properties") == Some(PropertiesToJson(ps))
    ensures OptionalProperties(fields) == Success(ps)
  {
    if ps.Some? {
      var items := PropertiesToJson(ps).items;
      forall i | 0 <= i < |items| ensures PropertyFromJson(items[i]) == Success(ps.value[i]) {
        PropertyRoundTrip(ps.value[i]);
      }
      var r := ListFromJson(items, PropertyFromJson);
      assert r.value == ps.value;
    }
  }

  lemma {:induction false} NodeRoundTrip(n: Node)
    ensures NodeFromJson(NodeToJson(n)) == Success(n)
  {
    var fields := NodeToJson(n).fields;
    LookupAt(fields, 0, "label");
    LookupAt(fields, 1, "properties");
    PropertiesRoundTrip(fields, n.properties);
  }

  lemma {:induction false} EdgeRoundTrip(e: Edge)
    ensures EdgeFromJson(EdgeToJson(e)) == Success(e)
  {
    var fields := EdgeToJson(e).fields;
    LookupAt(fields, 0, "label");
    LookupAt(fields, 1, "from");
    LookupAt(fields, 2, "to");
    LookupAt(fields, 3, "properties");
    PropertiesRoundTrip(fields, e.properties);
  }

  lemma NodesRoundTrip(nodes: seq<Node>)
    ensures ListFromJson(NodesToJson(nodes), NodeFromJson) == Success(nodes)
  {
    var ns := NodesToJson(nodes);
    forall i | 0 <= i < |ns| ensures NodeFromJson(ns[i]) == Success(nodes[i]) {
      NodeRoundTrip(nodes[i]);
    }
    assert ListFromJson(ns, NodeFromJson).value == nodes;
  }

  lemma EdgesRoundTrip(edges: seq<Edge>)
    ensures ListFromJson(EdgesToJson(edges), EdgeFromJson) == Success(edges)
  {
    var es := EdgesToJson(edges);
    forall i | 0 <= i < |es| ensures EdgeFromJson(es[i]) == Success(edges[i]) {
      EdgeRoundTrip(edges[i]);
    }
    assert ListFromJson(es, EdgeFromJson).value == edges;
  }

  /** Validation accepts every schema rendered with the "from" key and gives
      it back unchanged, so it checks shapes and nothing else. */
  lemma {:induction false} SchemaRoundTrip(g: GraphSchema)
    ensures GraphSchemaFromJson(SchemaToJson(g)) == Success(g)
  {
    var ns := NodesToJson(g.nodes);
    var es := EdgesToJson(g.edges);
    var fields := [Member("nodes", JArr(ns)), Member("edges", JArr(es))];
    LookupAt(fields, 0, "nodes");
    LookupAt(fields, 1, "edges");
    NodesRoundTrip(g.nodes);
    EdgesRoundTrip(g.edges);
    SchemaFromLists(fields, ns, es, g);
  }

  lemma SchemaFromLists(fields: seq<Member>, ns: seq<Json>, es: seq<Json>, g: GraphSchema)
    requires Lookup(fields, "nodes") == Some(JArr(ns)) && Lookup(fields, "edges") == Some(JArr(es))
    requires ListFromJson(ns, NodeFromJson) == Success(g.nodes)
    requires ListFromJson(es, EdgeFromJson) == Success(g.edges)
    ensures GraphSchemaFromJson(JObj(fields)) == Success(g)
  {
  }

  /** An edge whose endpoints name no node of the schema is accepted. */
  lemma DanglingEdgeAccepted()
    ensures exists g :: GraphSchemaFromJson(SchemaToJson(g)) == Success(g) && !EdgesReferToNodes(g)
  {
    var g := GraphSchema([], [Edge("WON", "Scholar", "Prize", None)]);
    SchemaRoundTrip(g);
    assert g.edges[0] in g.edges;
  }

  /** A property given without its type is rejected: the "string" default is
      the pruner's, not the record's. */
  lemma PropertyTypeRequired(name: string)
    ensures PropertyFromJson(JObj([Member("name", JStr(name))])).Failure?
  {
    assert Lookup([Member("name", JStr(name))], "type") == None;
  }

  /** Every property of a node of an accepted schema comes from a dict in
      that node's input list, at the same position, which names it and gives
      its type as a string: validation invents no property and defaults no
      type. */
  lemma {:induction false} AcceptedPropertiesTyped(j: Json, i: nat, m: nat)
    requires GraphSchemaFromJson(j).Success?
    requires i < |GraphSchemaFromJson(j).value.nodes|
    requires GraphSchemaFromJson(j).value.nodes[i].properties.Some?
    requires m < |GraphSchemaFromJson(j).value.nodes[i].properties.value|
    ensures var n := Lookup(j.fields, "nodes").value.items[i];
      var p := GraphSchemaFromJson(j).value.nodes[i].properties.value[m];
      n.JObj? && Lookup(n.fields, "properties").Some? && Lookup(n.fields, "properties").value.JArr? &&
      m < |Lookup(n.fields, "properties").value.items| &&
      var pj := Lookup(n.fields, "properties").value.items[m];
      pj.JObj? && Lookup(pj.fields, "name") == Some(JStr(p.name)) && Lookup(pj.fields, "type") == Some(JStr(p.dataType))
  {
    var g := GraphSchemaFromJson(j).value;
    var ns := Lookup(j.fields, "nodes").value.items;
    assert NodeFromJson(ns[i]) == Success(g.nodes[i]);
    var items := Lookup(ns[i].fields, "properties").value.items;
    assert PropertyFromJson(items[m]) == Success(g.nodes[i].properties.value[m]);
  }

  /** A schema with one node whose one property lacks its type is rejected
      as a whole. */
  lemma UntypedPropertyRejected()
    ensures GraphSchemaFromJson(JObj([
      Member("nodes", JArr([JObj([Member("label", JStr("A")),
                                  Member("properties", JArr([JObj([Member("name", JStr("x"))])]))])])),
      Member("edges", JArr([]))])).Failure?
  {
    var property := JObj([Member("name", JStr("x"))]);
    var node := JObj([Member("label", JStr("A")), Member("properties", JArr([property]))]);
    var fields := [Member("nodes", JArr([node])), Member("edges", JArr([]))];
    PropertyTypeRequired("x");
    LookupAt(node.fields, 1, "properties");
    assert NodeFromJson(node).Failure?;
    LookupAt(fields, 0, "nodes");
  }

  /** Absent or null properties give None, an empty list gives Some([]). */
  lemma {:induction false} AbsentAndEmptyPropertiesDiffer(name: string)
    ensures NodeFromJson(JObj([Member("label", JStr(name))])) == Success(Node(name, None))
    ensures NodeFromJson(JObj([Member("label", JStr(name)), Member("properties", JNull)])) == Success(Node(name, None))
    ensures NodeFromJson(JObj([Member("label", JStr(name)), Member("properties", JArr([]))])) == Success(Node(name, Some([])))
  {
    LookupAt([Member("label", JStr(name))], 0, "label");
    assert Lookup([Member("label", JStr(name))], "properties") == None;
    LookupAt([Member("label", JStr(name)), Member("properties", JNull)], 0, "label");
    LookupAt([Member("label", JStr(name)), Member("properties", JNull)], 1, "properties");
    LookupAt([Member("label", JStr(name)), Member("properties", JArr([]))], 0, "label");
    LookupAt([Member("label", JStr(name)), Member("properties", JArr([]))], 1, "properties");
  }
}

/** The content hash of a run graph: an encoding of encodings, without counts and with an optional
    field, that still determines the graph. */
module GraphEncoding {
  import opened Wrappers
  import opened Canonical
  import Decimal

  datatype GraphNode = GraphNode(kind: Bytes, responsibility: Bytes, model: Option<Bytes>, protectedValidation: bool)

  datatype GraphEdge = GraphEdge(fromKind: Bytes, toKind: Bytes)

  datatype Graph = Graph(nodes: seq<GraphNode>, edges: seq<GraphEdge>, retryRule: Bytes, validationRule: Bytes)

  // ----- Inner buffers -----

  function ModelFields(model: Option<Bytes>): seq<Field> {
    match model
    case None => []
    case Some(m) => [Field(Ascii("model"), m)]
  }

  function ProtectedField(protectedValidation: bool): Field {
    Field(Ascii("protected_validation"), Ascii(if protectedValidation then "1" else "0"))
  }

  function NodeFields(node: GraphNode): seq<Field> {
    [Field(Ascii("kind"), node.kind), Field(Ascii("responsibility"), node.responsibility)]
    + ModelFields(node.model) + [ProtectedField(node.protectedValidation)]
  }

  function EdgeFields(edge: GraphEdge): seq<Field> {
    [Field(Ascii("from"), edge.fromKind), Field(Ascii("to"), edge.toKind)]
  }

  lemma NodeFieldsInjective(a: GraphNode, b: GraphNode)
    requires NodeFields(a) == NodeFields(b)
    ensures a == b
  {
    var fa, fb := NodeFields(a), NodeFields(b);
    assert fa[0] == Field(Ascii("kind"), a.kind) && fb[0] == Field(Ascii("kind"), b.kind);
    assert fa[1] == Field(Ascii("responsibility"), a.responsibility) && fb[1] == Field(Ascii("responsibility"), b.responsibility);
    if a.model.Some? {
      assert fa[2] == Field(Ascii("model"), a.model.value) && fb[2] == Field(Ascii("model"), b.model.value);
    }
    assert fa[|fa| - 1] == ProtectedField(a.protectedValidation) && fb[|fb| - 1] == ProtectedField(b.protectedValidation);
    assert ProtectedField(a.protectedValidation).value[0] == ProtectedField(b.protectedValidation).value[0];
  }

  lemma EdgeFieldsInjective(a: GraphEdge, b: GraphEdge)
    requires EdgeFields(a) == EdgeFields(b)
    ensures a == b
  {
    assert EdgeFields(a)[0].value == EdgeFields(b)[0].value && EdgeFields(a)[1].value == EdgeFields(b)[1].value;
  }

  // ----- The outer list -----

  function NodeField(i: nat, node: GraphNode): Field {
    Field(Ascii("node:" + Decimal.Print(i)), Encode(NodeFields(node)))
  }

  function EdgeField(i: nat, edge: GraphEdge): Field {
    Field(Ascii("edge:" + Decimal.Print(i)), Encode(EdgeFields(edge)))
  }

  function NodeList(nodes: seq<GraphNode>): (r: seq<Field>)
    ensures |r| == |nodes| && forall i :: 0 <= i < |r| ==> r[i] == NodeField(i, nodes[i])
  {
    seq(|nodes|, i requires 0 <= i < |nodes| => NodeField(i, nodes[i]))
  }

  function EdgeList(edges: seq<GraphEdge>): (r: seq<Field>)
    ensures |r| == |edges| && forall i :: 0 <= i < |r| ==> r[i] == EdgeField(i, edges[i])
  {
    seq(|edges|, i requires 0 <= i < |edges| => EdgeField(i, edges[i]))
  }

  function RuleFields(graph: Graph): seq<Field> {
    [Field(Ascii("retry_rule"), graph.retryRule), Field(Ascii("validation_rule"), graph.validationRule)]
  }

  function GraphFields(graph: Graph): seq<Field> {
    NodeList(graph.nodes) + EdgeList(graph.edges) + RuleFields(graph)
  }

  /** The buffer `hash_graph_content` hashes. */
  function GraphBytes(graph: Graph): Bytes {
    Versioned(GraphFields(graph))
  }

  /** Every string of the graph, and every inner buffer, stays below the length limit. */
  predicate Encodable(graph: Graph) {
    && AllShort(GraphFields(graph))
    && (forall i :: 0 <= i < |graph.nodes| ==> AllShort(NodeFields(graph.nodes[i])))
    && (forall i :: 0 <= i < |graph.edges| ==> AllShort(EdgeFields(graph.edges[i])))
  }

  // The first letter of a name tells node fields, edge fields and rules apart.
  function Sort(field: Field): int {
    if field.name == [] then -1 else field.name[0]
  }

  lemma NodeSort(i: nat, node: GraphNode)
    ensures Sort(NodeField(i, node)) == 'n' as int
  {
  }

  lemma EdgeSort(i: nat, edge: GraphEdge)
    ensures Sort(EdgeField(i, edge)) == 'e' as int
  {
  }

  lemma RuleSort(graph: Graph)
    ensures Sort(RuleFields(graph)[0]) == 'r' as int
  {
  }

  lemma SortAt(graph: Graph, i: nat)
    requires i <= |graph.nodes| + |graph.edges|
    ensures i < |GraphFields(graph)|
    ensures Sort(GraphFields(graph)[i])
         == if i < |graph.nodes| then 'n' as int else if i < |graph.nodes| + |graph.edges| then 'e' as int else 'r' as int
  {
    if i < |graph.nodes| {
      NodeSort(i, graph.nodes[i]);
    } else if i < |graph.nodes| + |graph.edges| {
      EdgeSort(i - |graph.nodes|, graph.edges[i - |graph.nodes|]);
    } else {
      assert GraphFields(graph)[i] == RuleFields(graph)[0];
      RuleSort(graph);
    }
  }

  /** The counts are not encoded, but the names give them away. */
  lemma SameCounts(a: Graph, b: Graph)
    requires GraphFields(a) == GraphFields(b)
    ensures |a.nodes| == |b.nodes| && |a.edges| == |b.edges|
  {
    assert |GraphFields(a)| == |GraphFields(b)|;
    var i := if |a.nodes| < |b.nodes| then |a.nodes| else |b.nodes|;
    SortAt(a, i);
    SortAt(b, i);
  }

  lemma SameNode(a: Graph, b: Graph, i: nat)
    requires Encodable(a) && Encodable(b) && GraphFields(a) == GraphFields(b)
    requires |a.nodes| == |b.nodes| && i < |a.nodes|
    ensures a.nodes[i] == b.nodes[i]
  {
    assert GraphFields(a)[i] == NodeField(i, a.nodes[i]) && GraphFields(b)[i] == NodeField(i, b.nodes[i]);
    EncodingInjective(NodeFields(a.nodes[i]), NodeFields(b.nodes[i]));
    NodeFieldsInjective(a.nodes[i], b.nodes[i]);
  }

  lemma SameEdge(a: Graph, b: Graph, i: nat)
    requires Encodable(a) && Encodable(b) && GraphFields(a) == GraphFields(b)
    requires |a.nodes| == |b.nodes| && |a.edges| == |b.edges| && i < |a.edges|
    ensures a.edges[i] == b.edges[i]
  {
    var j := |a.nodes| + i;
    assert GraphFields(a)[j] == EdgeField(i, a.edges[i]) && GraphFields(b)[j] == EdgeField(i, b.edges[i]);
    EncodingInjective(EdgeFields(a.edges[i]), EdgeFields(b.edges[i]));
    EdgeFieldsInjective(a.edges[i], b.edges[i]);
  }

  lemma SameRules(a: Graph, b: Graph)
    requires GraphFields(a) == GraphFields(b) && |a.nodes| == |b.nodes| && |a.edges| == |b.edges|
    ensures a.retryRule == b.retryRule && a.validationRule == b.validationRule
  {
    var j := |a.nodes| + |a.edges|;
    assert GraphFields(a)[j] == RuleFields(a)[0] && GraphFields(b)[j] == RuleFields(b)[0];
    assert GraphFields(a)[j + 1] == RuleFields(a)[1] && GraphFields(b)[j + 1] == RuleFields(b)[1];
  }

  /** Graphs with equal buffers have the same nodes (also in whether a model is assigned), the same
      edges and the same rules. */
  lemma GraphInjective(a: Graph, b: Graph)
    requires Encodable(a) && Encodable(b)
    ensures GraphBytes(a) == GraphBytes(b) <==> a == b
  {
    if GraphBytes(a) == GraphBytes(b) {
      VersionedInjective(GraphFields(a), GraphFields(b));
      SameCounts(a, b);
      forall i | 0 <= i < |a.nodes| ensures a.nodes[i] == b.nodes[i] {
        SameNode(a, b, i);
      }
      forall i | 0 <= i < |a.edges| ensures a.edges[i] == b.edges[i] {
        SameEdge(a, b, i);
      }
      SameRules(a, b);
      assert a.nodes == b.nodes && a.edges == b.edges;
    }
  }

  // ----- Building the buffer -----

  lemma AppendTwo(a: Field, b: Field)
    ensures EncodeField(a) + EncodeField(b) == Encode([a, b])
  {
    assert [a, b][1..] == [b] && [b][1..] == [];
    assert Encode([b]) == EncodeField(b) + Encode([]);
  }

  method EncodeNode(node: GraphNode) returns (bytes: Bytes)
    ensures bytes == Encode(NodeFields(node))
  {
    var buffer := new Buffer();
    buffer.AppendField(Ascii("kind"), node.kind);
    buffer.AppendField(Ascii("responsibility"), node.responsibility);
    ghost var fields := [Field(Ascii("kind"), node.kind), Field(Ascii("responsibility"), node.responsibility)];
    AppendTwo(fields[0], fields[1]);
    assert [] + EncodeField(fields[0]) + EncodeField(fields[1]) == EncodeField(fields[0]) + EncodeField(fields[1]);
    if node.model.Some? {
      buffer.AppendField(Ascii("model"), node.model.value);
      EncodeOfAppend(fields, Field(Ascii("model"), node.model.value));
    }
    assert fields + [] == fields;
    assert buffer.bytes == Encode(fields + ModelFields(node.model));
    buffer.AppendField(Ascii("protected_validation"), Ascii(if node.protectedValidation then "1" else "0"));
    EncodeOfAppend(fields + ModelFields(node.model), ProtectedField(node.protectedValidation));
    bytes := buffer.bytes;
  }

  method EncodeEdge(edge: GraphEdge) returns (bytes: Bytes)
    ensures bytes == Encode(EdgeFields(edge))
  {
    var buffer := new Buffer();
    buffer.AppendField(Ascii("from"), edge.fromKind);
    buffer.AppendField(Ascii("to"), edge.toKind);
    AppendTwo(EdgeFields(edge)[0], EdgeFields(edge)[1]);
    assert [] + EncodeField(EdgeFields(edge)[0]) == EncodeField(EdgeFields(edge)[0]);
    bytes := buffer.bytes;
  }

  method HashGraphContent<Digest>(graph: Graph, hash: Bytes -> Digest) returns (digest: Digest)
    ensures digest == hash(GraphBytes(graph))
  {
    var fields: seq<Field> := [];
    for i := 0 to |graph.nodes|
      invariant fields == NodeList(graph.nodes)[..i]
    {
      var bytes := EncodeNode(graph.nodes[i]);
      fields := fields + [Field(Ascii("node:" + Decimal.Print(i)), bytes)];
    }
    for i := 0 to |graph.edges|
      invariant fields == NodeList(graph.nodes) + EdgeList(graph.edges)[..i]
    {
      var bytes := EncodeEdge(graph.edges[i]);
      fields := fields + [Field(Ascii("edge:" + Decimal.Print(i)), bytes)];
    }
    fields := fields + [Field(Ascii("retry_rule"), graph.retryRule)];
    fields := fields + [Field(Ascii("validation_rule"), graph.validationRule)];
    assert fields == GraphFields(graph);
    digest := HashCanonicalFields(fields, hash);
  }
}

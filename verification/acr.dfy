/** The enriched tree ("ACR") walked by the traversal engine, together with
    the primitive syntax nodes it wraps. */
module Acr {
  import opened Errors

  /** The value held by one field of a primitive node. */
  datatype Value =
    | Child(node: Node)          // a single sub-node
    | Children(nodes: seq<Node>) // a list field
    | Text(text: string)         // an identifier or other string
    | Nothing                    // Python `None`

  datatype Field = Field(name: string, value: Value)

  /** A FlowContainer: a named field of a Block holding its elements in order. */
  datatype Container = Container(name: string, items: seq<Node>)

  datatype Node =
      /** A primitive syntax node (statement, expression, alias, ...) with its
          fields in declaration order. */
    | Ast(kind: string, fields: seq<Field>)
      /** A lexical scope (module, function, class, ...): a Block that also
          carries the name it binds in the enclosing namespace. */
    | Scope(kind: string, name: string, containers: seq<Container>)
      /** A control-flow block that is not a scope (loop, if, try, ...); `attrs`
          are its non-container attributes, such as the `target` of a For. */
    | Block(kind: string, attrs: seq<Field>, containers: seq<Container>)
      /** A run of plain statements inside a FlowContainer. */
    | CodeBlock(code: seq<Node>)
      /** Any other enriched node: neither a Block nor a primitive node. */
    | Other(kind: string)

  /** The class name the visitor dispatches on (`type(node).__name__`). */
  function KindOf(n: Node): string
  {
    match n
    case Ast(k, _) => k
    case Scope(k, _, _) => k
    case Block(k, _, _) => k
    case CodeBlock(_) => "CodeBlock"
    case Other(k) => k
  }

  /** `isinstance(node, Block)`: a Scope is a Block too. */
  predicate IsBlock(n: Node)
  {
    n.Scope? || n.Block?
  }

  /** The primitive statements a FlowContainer may hold directly. */
  predicate IsTerminal(n: Node)
  {
    n.Ast? && n.kind in {"Return", "Raise", "Assert", "Break", "Continue"}
  }

  /** An element a FlowContainer may hold: anything else is a malformed tree. */
  predicate IsFlowItem(n: Node)
  {
    n.CodeBlock? || IsBlock(n) || IsTerminal(n)
  }

  /** Attribute lookup on a node's fields: the first field with that name. */
  function Lookup(fields: seq<Field>, name: string): (r: Option<Value>)
    ensures r.Some? <==> exists i :: 0 <= i < |fields| && fields[i].name == name
    ensures r.Some? ==> exists i :: 0 <= i < |fields| && fields[i].name == name && fields[i].value == r.value
                                   && forall j :: 0 <= j < i ==> fields[j].name != name
  {
    if fields == [] then None
    else if fields[0].name == name then Some(fields[0].value)
    else
      var r := Lookup(fields[1..], name);
      assert forall i :: 0 < i < |fields| ==> fields[i] == fields[1..][i - 1];
      r
  }
}

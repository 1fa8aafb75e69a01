/** The tree dumper: a deterministic rendering of lists, dicts and nodes,
    compact when every part is simple and there are at most three of them,
    otherwise one part per line when an indent is given. */
module Dump {
  import opened Errors

  /** What `dump` can be given or meet inside a tree. A leaf is any other
      value, kept as its type name and its `repr`. */
  datatype Obj =
    | List(items: seq<Obj>)
    | Dict(entries: seq<Entry>)
    | Node(typeName: string, fields: seq<Attr>, attributes: seq<Attr>)
    | Leaf(typeName: string, repr: string)

  /** A dict entry; the key is kept as its `repr`. */
  datatype Entry = Entry(keyRepr: string, value: Obj)

  /** A name listed in `_fields` or `_attributes`, with its value; None when
      the object has no attribute of that name. */
  datatype Attr = Attr(name: string, value: Option<Obj>)

  /** The `indent` argument: None, a width, or a unit string. */
  datatype Indent = NoIndent | Width(n: int) | Unit(text: string)

  datatype Context = Context(annotateFields: bool, includeAttributes: bool, indent: Option<string>)

  /** The `repr` of the default `_format_attr` substitutes for a missing attribute. */
  const MissingAttribute: string := "'<Is not an attribute of the object>'"

  /** Python's `s * n`: empty for n <= 0. */
  function Repeat(s: string, n: int): string
    decreases if n <= 0 then 0 else n
  {
    if n <= 0 then "" else s + Repeat(s, n - 1)
  }

  /** Python's `sep.join(args)`. */
  function Join(sep: string, args: seq<string>): string
  {
    if |args| == 0 then ""
    else if |args| == 1 then args[0]
    else args[0] + sep + Join(sep, args[1..])
  }

  /** `dump`'s normalisation of `indent`: a width becomes that many spaces. */
  function IndentUnit(indent: Indent): Option<string>
  {
    match indent
    case NoIndent => None
    case Width(n) => Some(Repeat(" ", n))
    case Unit(u) => Some(u)
  }

  /** The level, prefix and separator `_format` uses for the parts of an
      object met at `lvl`: with an indent, one unit more per nesting level. */
  function Layout(ctx: Context, lvl: int): (int, string, string)
  {
    match ctx.indent
    case Some(u) => (lvl + 1, "\n" + Repeat(u, lvl + 1), ",\n" + Repeat(u, lvl + 1))
    case None => (lvl, "", ", ")
  }

  /** `_format_args_with_allsimple`. */
  function FormatArgs(prefix: string, sep: string, args: seq<string>, allsimple: bool): (string, bool)
  {
    if allsimple && |args| <= 3 then (Join(", ", args), |args| == 0)
    else (prefix + Join(sep, args), false)
  }

  /** `_format`: the rendering of an object met at `lvl`, and whether it is
      simple. */
  function Format(obj: Obj, ctx: Context, lvl: int): (string, bool)
    decreases obj, 1
  {
    if obj.Leaf? then (obj.repr, true)
    else
      var (inner, prefix, sep) := Layout(ctx, lvl);
      var (args, allsimple) := Args(obj, ctx, inner);
      var (value, simple) := FormatArgs(prefix, sep, args, allsimple);
      (Enclose(obj, value), simple)
  }

  /** The brackets of a list, the braces of a dict, `TypeName(...)` of a node. */
  function Enclose(obj: Obj, value: string): string
  {
    match obj
    case List(_) => "[" + value + "]"
    case Dict(_) => "{" + value + "}"
    case Node(typeName, _, _) => typeName + "(" + value + ")"
    case Leaf(_, repr) => repr
  }

  /** The rendered parts of a list, dict or node, and whether all are simple. */
  function Args(obj: Obj, ctx: Context, lvl: int): (seq<string>, bool)
    decreases obj, 0
  {
    match obj
    case List(items) =>
      (seq(|items|, k requires 0 <= k < |items| => Format(items[k], ctx, lvl).0),
       forall k :: 0 <= k < |items| ==> Format(items[k], ctx, lvl).1)
    case Dict(entries) =>
      (seq(|entries|, k requires 0 <= k < |entries| =>
             entries[k].keyRepr + ": " + Format(entries[k].value, ctx, lvl).0),
       forall k :: 0 <= k < |entries| ==> Format(entries[k].value, ctx, lvl).1)
    case Node(_, fields, attributes) =>
      if ctx.includeAttributes && |attributes| > 0 then
        (FieldArgs(fields, ctx, lvl) + AttributeArgs(attributes, ctx, lvl),
         AllSimple(fields, ctx, lvl) && AllSimple(attributes, ctx, lvl))
      else (FieldArgs(fields, ctx, lvl), AllSimple(fields, ctx, lvl))
    case Leaf(_, _) => ([], true)
  }

  /** The parts of a node's fields: `name=value` when annotating, else the value. */
  function FieldArgs(fields: seq<Attr>, ctx: Context, lvl: int): seq<string>
    decreases fields, 1
  {
    seq(|fields|, k requires 0 <= k < |fields| =>
          if ctx.annotateFields then fields[k].name + "=" + FormatAttr(fields[k], ctx, lvl).0
          else FormatAttr(fields[k], ctx, lvl).0)
  }

  /** The parts of a node's attributes, always `name=value`. */
  function AttributeArgs(attributes: seq<Attr>, ctx: Context, lvl: int): seq<string>
    decreases attributes, 1
  {
    seq(|attributes|, k requires 0 <= k < |attributes| => attributes[k].name + "=" + FormatAttr(attributes[k], ctx, lvl).0)
  }

  /** Every attribute of `attrs` renders as simple. */
  predicate AllSimple(attrs: seq<Attr>, ctx: Context, lvl: int)
    decreases attrs, 1
  {
    forall k :: 0 <= k < |attrs| ==> FormatAttr(attrs[k], ctx, lvl).1
  }

  /** `_format_attr`. */
  function FormatAttr(a: Attr, ctx: Context, lvl: int): (string, bool)
    decreases a, 0
  {
    match a.value
    case Some(v) => Format(v, ctx, lvl)
    case None => (MissingAttribute, true)
  }

  // ---------------------------------------------------------------------
  // The loops of the source
  // ---------------------------------------------------------------------

  /** `dump`: anything but a list, dict or node is a TypeError; otherwise the
      rendering at level 0 with the indent normalised. */
  method DumpObj(obj: Obj, annotateFields: bool, includeAttributes: bool, indent: Indent) returns (r: Result<string>)
    ensures r.Err? <==> obj.Leaf?
    ensures r.Err? ==> r.error == WrongType(obj.typeName)
    ensures r.Ok? ==> r.value == Format(obj, Context(annotateFields, includeAttributes, IndentUnit(indent)), 0).0
  {
    if obj.Leaf? {
      return Err(WrongType(obj.typeName));
    }
    var unit := IndentUnit(indent);
    var value, _ := FormatObj(obj, Context(annotateFields, includeAttributes, unit), 0);
    r := Ok(value);
  }

  /** `_format`, accumulating the parts and the `allsimple` flag in loops. */
  method FormatObj(obj: Obj, ctx: Context, lvl: int) returns (value: string, simple: bool)
    ensures (value, simple) == Format(obj, ctx, lvl)
    decreases obj, 2
  {
    var inner, prefix, sep;
    if ctx.indent.Some? {
      inner := lvl + 1;
      prefix := "\n" + Repeat(ctx.indent.value, inner);
      sep := ",\n" + Repeat(ctx.indent.value, inner);
    } else {
      inner := lvl;
      prefix := "";
      sep := ", ";
    }
    match obj {
      case List(_) =>
        var args, allsimple := FormatItems(obj, ctx, inner);
        var joined := FormatArgs(prefix, sep, args, allsimple);
        value, simple := "[" + joined.0 + "]", joined.1;
      case Dict(_) =>
        var args, allsimple := FormatEntries(obj, ctx, inner);
        var joined := FormatArgs(prefix, sep, args, allsimple);
        value, simple := "{" + joined.0 + "}", joined.1;
      case Node(typeName, _, _) =>
        var args, allsimple := FormatFields(obj, ctx, inner);
        var joined := FormatArgs(prefix, sep, args, allsimple);
        value, simple := typeName + "(" + joined.0 + ")", joined.1;
      case Leaf(_, repr) =>
        value, simple := repr, true;
    }
  }

  /** The list branch of `_format`: each item in order. */
  method FormatItems(obj: Obj, ctx: Context, lvl: int) returns (args: seq<string>, allsimple: bool)
    requires obj.List?
    ensures (args, allsimple) == Args(obj, ctx, lvl)
    decreases obj, 1
  {
    var items := obj.items;
    args := [];
    allsimple := true;
    for i := 0 to |items|
      invariant |args| == i
      invariant forall k :: 0 <= k < i ==> args[k] == Format(items[k], ctx, lvl).0
      invariant allsimple == forall k :: 0 <= k < i ==> Format(items[k], ctx, lvl).1
    {
      var v, s := FormatObj(items[i], ctx, lvl);
      allsimple := allsimple && s;
      args := args + [v];
    }
    assert args == Args(obj, ctx, lvl).0;
  }

  /** The dict branch of `_format`: `key!r: value` per entry, in order. */
  method FormatEntries(obj: Obj, ctx: Context, lvl: int) returns (args: seq<string>, allsimple: bool)
    requires obj.Dict?
    ensures (args, allsimple) == Args(obj, ctx, lvl)
    decreases obj, 1
  {
    var entries := obj.entries;
    args := [];
    allsimple := true;
    for i := 0 to |entries|
      invariant |args| == i
      invariant forall k :: 0 <= k < i ==>
                  args[k] == entries[k].keyRepr + ": " + Format(entries[k].value, ctx, lvl).0
      invariant allsimple == forall k :: 0 <= k < i ==> Format(entries[k].value, ctx, lvl).1
    {
      var v, s := FormatObj(entries[i].value, ctx, lvl);
      allsimple := allsimple && s;
      args := args + [entries[i].keyRepr + ": " + v];
    }
    assert args == Args(obj, ctx, lvl).0;
  }

  /** `_format_ast_or_acr`: every field, annotated when asked, then every
      attribute, always annotated, when asked and the node has any. */
  method FormatFields(obj: Obj, ctx: Context, lvl: int) returns (args: seq<string>, allsimple: bool)
    requires obj.Node?
    ensures (args, allsimple) == Args(obj, ctx, lvl)
    decreases obj, 1
  {
    args, allsimple := FormatFieldList(obj.fields, ctx, lvl);
    if ctx.includeAttributes && |obj.attributes| > 0 {
      var more, moreSimple := FormatAttributeList(obj.attributes, ctx, lvl);
      args, allsimple := args + more, allsimple && moreSimple;
    }
  }

  /** The loop over `obj._fields`. */
  method FormatFieldList(fields: seq<Attr>, ctx: Context, lvl: int) returns (args: seq<string>, allsimple: bool)
    ensures args == FieldArgs(fields, ctx, lvl)
    ensures allsimple == AllSimple(fields, ctx, lvl)
    decreases fields, 2
  {
    args := [];
    allsimple := true;
    for i := 0 to |fields|
      invariant |args| == i
      invariant forall k :: 0 <= k < i ==> args[k] == FieldArgs(fields, ctx, lvl)[k]
      invariant allsimple == forall k :: 0 <= k < i ==> FormatAttr(fields[k], ctx, lvl).1
    {
      var v, s := FormatAttrValue(fields[i], ctx, lvl);
      allsimple := allsimple && s;
      if ctx.annotateFields {
        args := args + [fields[i].name + "=" + v];
      } else {
        args := args + [v];
      }
    }
  }

  /** The loop over `obj._attributes`. */
  method FormatAttributeList(attributes: seq<Attr>, ctx: Context, lvl: int) returns (args: seq<string>, allsimple: bool)
    ensures args == AttributeArgs(attributes, ctx, lvl)
    ensures allsimple == AllSimple(attributes, ctx, lvl)
    decreases attributes, 2
  {
    args := [];
    allsimple := true;
    for i := 0 to |attributes|
      invariant |args| == i
      invariant forall k :: 0 <= k < i ==> args[k] == AttributeArgs(attributes, ctx, lvl)[k]
      invariant allsimple == forall k :: 0 <= k < i ==> FormatAttr(attributes[k], ctx, lvl).1
    {
      var v, s := FormatAttrValue(attributes[i], ctx, lvl);
      allsimple := allsimple && s;
      args := args + [attributes[i].name + "=" + v];
    }
  }

  /** `_format_attr`: `getattr` with the default string. */
  method FormatAttrValue(a: Attr, ctx: Context, lvl: int) returns (value: string, simple: bool)
    ensures (value, simple) == FormatAttr(a, ctx, lvl)
    decreases a, 1
  {
    match a.value {
      case Some(v) =>
        value, simple := FormatObj(v, ctx, lvl);
      case None =>
        value, simple := MissingAttribute, true;
    }
  }

  // ---------------------------------------------------------------------
  // Properties of the rendering
  // ---------------------------------------------------------------------

  /** An integer indent is that many spaces; zero or a negative width is
      the empty unit. */
  lemma SpacesIndent(n: int)
    ensures IndentUnit(Width(n)).Some?
    ensures |IndentUnit(Width(n)).value| == if n <= 0 then 0 else n
    ensures forall i :: 0 <= i < |IndentUnit(Width(n)).value| ==> IndentUnit(Width(n)).value[i] == ' '
  {
    RepeatSpaces(n);
  }

  lemma {:induction false} RepeatSpaces(n: int)
    ensures |Repeat(" ", n)| == if n <= 0 then 0 else n
    ensures forall i :: 0 <= i < |Repeat(" ", n)| ==> Repeat(" ", n)[i] == ' '
    decreases if n <= 0 then 0 else n
  {
    if n > 0 {
      RepeatSpaces(n - 1);
    }
  }

  lemma {:induction false} RepeatOneMore(u: string, n: int)
    requires n >= 0
    ensures Repeat(u, n + 1) == Repeat(u, n) + u
    decreases n
  {
    if n > 0 {
      RepeatOneMore(u, n - 1);
    }
  }

  /** With an indent, the parts of an object are met one level deeper, and
      each level's prefix and separator carry one indent unit more than
      those of the level above. */
  lemma NestingAddsOneUnit(ctx: Context, lvl: int)
    requires ctx.indent.Some? && lvl >= 0
    ensures Layout(ctx, lvl).0 == lvl + 1
    ensures Layout(ctx, lvl + 1).1 == Layout(ctx, lvl).1 + ctx.indent.value
    ensures Layout(ctx, lvl + 1).2 == Layout(ctx, lvl).2 + ctx.indent.value
  {
    RepeatOneMore(ctx.indent.value, lvl + 1);
  }

  /** `_format_args_with_allsimple`: the result is simple exactly when every
      part was simple and there are none; a compact result of newline-free
      parts is one line; otherwise the prefix leads. */
  lemma FormatArgsShape(prefix: string, sep: string, args: seq<string>, allsimple: bool)
    ensures FormatArgs(prefix, sep, args, allsimple).1 <==> allsimple && args == []
    ensures allsimple && |args| <= 3 && (forall k :: 0 <= k < |args| ==> '\n' !in args[k]) ==>
              '\n' !in FormatArgs(prefix, sep, args, allsimple).0
    ensures !(allsimple && |args| <= 3) ==> prefix <= FormatArgs(prefix, sep, args, allsimple).0
  {
    if allsimple && |args| <= 3 && (forall k :: 0 <= k < |args| ==> '\n' !in args[k]) {
      JoinOneLine(", ", args);
    }
  }

  lemma {:induction false} JoinOneLine(sep: string, args: seq<string>)
    requires '\n' !in sep
    requires forall k :: 0 <= k < |args| ==> '\n' !in args[k]
    ensures '\n' !in Join(sep, args)
  {
    if |args| > 1 {
      JoinOneLine(sep, args[1..]);
    }
  }

  /** Which objects render as simple: leaves, and lists, dicts and nodes
      with no parts at all. */
  predicate Bare(obj: Obj, ctx: Context)
  {
    match obj
    case Leaf(_, _) => true
    case List(items) => items == []
    case Dict(entries) => entries == []
    case Node(_, fields, attributes) => fields == [] && (!ctx.includeAttributes || attributes == [])
  }

  /** A rendering is simple exactly when the object is a leaf or has no parts. */
  lemma SimpleIff(obj: Obj, ctx: Context, lvl: int)
    ensures Format(obj, ctx, lvl).1 <==> Bare(obj, ctx)
  {
    if !obj.Leaf? {
      var inner := Layout(ctx, lvl).0;
      var (args, allsimple) := Args(obj, ctx, inner);
      match obj
      case List(items) =>
        assert |args| == |items|;
      case Dict(entries) =>
        assert |args| == |entries|;
      case Node(_, fields, attributes) =>
        assert |FieldArgs(fields, ctx, inner)| == |fields|;
        assert |AttributeArgs(attributes, ctx, inner)| == |attributes|;
        if ctx.includeAttributes && |attributes| > 0 {
          assert |args| == |fields| + |attributes|;
        } else {
          assert |args| == |fields|;
          assert fields == [] ==> AllSimple(fields, ctx, inner);
        }
    }
  }

  /** A list renders in brackets, a dict in braces, a node as `TypeName(...)`. */
  lemma Enclosed(obj: Obj, ctx: Context, lvl: int)
    ensures obj.List? ==> "[" <= Format(obj, ctx, lvl).0 && Format(obj, ctx, lvl).0[|Format(obj, ctx, lvl).0| - 1] == ']'
    ensures obj.Dict? ==> "{" <= Format(obj, ctx, lvl).0 && Format(obj, ctx, lvl).0[|Format(obj, ctx, lvl).0| - 1] == '}'
    ensures obj.Node? ==> obj.typeName + "(" <= Format(obj, ctx, lvl).0 && Format(obj, ctx, lvl).0[|Format(obj, ctx, lvl).0| - 1] == ')'
    ensures obj.Leaf? ==> Format(obj, ctx, lvl).0 == obj.repr
  {
  }

  /** No text of the tree (reprs, keys, type and attribute names) holds a newline. */
  predicate NewlineFree(obj: Obj)
    decreases obj, 1
  {
    match obj
    case Leaf(_, repr) => '\n' !in repr
    case List(items) => forall k :: 0 <= k < |items| ==> NewlineFree(items[k])
    case Dict(entries) => forall k :: 0 <= k < |entries| ==> '\n' !in entries[k].keyRepr && NewlineFree(entries[k].value)
    case Node(typeName, fields, attributes) => '\n' !in typeName && AttrsNewlineFree(fields) && AttrsNewlineFree(attributes)
  }

  predicate AttrsNewlineFree(attrs: seq<Attr>)
    decreases attrs, 0
  {
    forall k :: 0 <= k < |attrs| ==>
      '\n' !in attrs[k].name && (attrs[k].value.Some? ==> NewlineFree(attrs[k].value.value))
  }

  /** Without an indent, a tree with no newline in its texts dumps to a
      single line, however deep. */
  lemma {:induction false} SingleLine(obj: Obj, ctx: Context, lvl: int)
    requires ctx.indent.None? && NewlineFree(obj)
    ensures '\n' !in Format(obj, ctx, lvl).0
    decreases obj, 2
  {
    if !obj.Leaf? {
      var args := Args(obj, ctx, lvl).0;
      ArgsSingleLine(obj, ctx, lvl);
      JoinOneLine(", ", args);
    }
  }

  lemma {:induction false} ArgsSingleLine(obj: Obj, ctx: Context, lvl: int)
    requires ctx.indent.None? && NewlineFree(obj)
    ensures forall k :: 0 <= k < |Args(obj, ctx, lvl).0| ==> '\n' !in Args(obj, ctx, lvl).0[k]
    decreases obj, 1
  {
    match obj
    case List(items) =>
      forall k | 0 <= k < |items|
        ensures '\n' !in Format(items[k], ctx, lvl).0
      {
        SingleLine(items[k], ctx, lvl);
      }
    case Dict(entries) =>
      forall k | 0 <= k < |entries|
        ensures '\n' !in Format(entries[k].value, ctx, lvl).0
      {
        SingleLine(entries[k].value, ctx, lvl);
      }
    case Node(_, fields, attributes) =>
      AttrsSingleLine(fields, ctx, lvl);
      AttrsSingleLine(attributes, ctx, lvl);
    case Leaf(_, _) =>
  }

  lemma {:induction false} AttrsSingleLine(attrs: seq<Attr>, ctx: Context, lvl: int)
    requires ctx.indent.None? && AttrsNewlineFree(attrs)
    ensures forall k :: 0 <= k < |attrs| ==> '\n' !in FormatAttr(attrs[k], ctx, lvl).0
    decreases attrs, 0
  {
    forall k | 0 <= k < |attrs|
      ensures '\n' !in FormatAttr(attrs[k], ctx, lvl).0
    {
      match attrs[k].value
      case Some(v) => SingleLine(v, ctx, lvl);
      case None => assert MissingAttribute[0] == '\'';
    }
  }
}

/** The redefinition analysis: which names a node (re)binds, and the
    generation counters of the symbol table that binding advances. */
module Redefinitions {
  import opened Errors
  import opened Acr

  /** `NameCollector.collect_names`: the names a binding target binds, in
      order. The collector lives outside this model, so it is a parameter. */
  type Collector = Node -> seq<string>

  /** The attributes of a node other than its FlowContainers. */
  function Attrs(n: Node): seq<Field>
  {
    match n
    case Ast(_, fields) => fields
    case Block(_, attrs, _) => attrs
    case _ => []
  }

  /** `node.target`, which must hold a single sub-node. */
  function Target(n: Node): Result<Node>
  {
    match Lookup(Attrs(n), "target")
    case Some(Child(t)) => Ok(t)
    case _ => Err(Malformed(KindOf(n), "target"))
  }

  /** The names bound by a list of assignment targets, taken left to right. */
  function TargetsNames(collect: Collector, targets: seq<Node>): seq<string>
  {
    if targets == [] then [] else collect(targets[0]) + TargetsNames(collect, targets[1..])
  }

  /** `alias.asname or alias.name`: `asname` is read first and wins when it is
      a non-empty string; only otherwise (None or "") is `name` read. */
  function AliasName(alias: Node): Result<string>
  {
    match Lookup(Attrs(alias), "asname")
    case Some(Text(asname)) =>
      if asname != "" then Ok(asname) else NameOf(alias)
    case Some(Nothing) => NameOf(alias)
    case _ => Err(Malformed(KindOf(alias), "asname"))
  }

  /** `alias.name`, which must be a string. */
  function NameOf(alias: Node): Result<string>
  {
    match Lookup(Attrs(alias), "name")
    case Some(Text(name)) => Ok(name)
    case _ => Err(Malformed(KindOf(alias), "name"))
  }

  /** One name per alias, in declaration order; the first malformed alias
      is the error. */
  function AliasNames(aliases: seq<Node>): Result<seq<string>>
  {
    if aliases == [] then Ok([])
    else match AliasName(aliases[0])
      case Err(e) => Err(e)
      case Ok(x) => Prefixed([x], AliasNames(aliases[1..]))
  }

  function Prefixed(p: seq<string>, r: Result<seq<string>>): Result<seq<string>>
  {
    match r
    case Ok(v) => Ok(p + v)
    case Err(e) => Err(e)
  }

  predicate IsTargetBinder(n: Node)
  {
    (n.Block? && n.kind == "For") || (n.Ast? && n.kind in {"AugAssign", "NamedExpr"})
  }

  predicate IsImport(n: Node)
  {
    n.Ast? && n.kind in {"Import", "ImportFrom"}
  }

  /** The names `RedefinitionAnalyserBase.visit` collects for a node, in the
      order their generations are advanced. */
  function BoundNames(collect: Collector, n: Node): Result<seq<string>>
  {
    if n.Scope? then Ok([n.name])
    else if IsTargetBinder(n) then
      (match Target(n)
       case Ok(t) => Ok(collect(t))
       case Err(e) => Err(e))
    else if n.Ast? && n.kind == "Assign" then
      (match Lookup(n.fields, "targets")
       case Some(Children(ts)) => Ok(TargetsNames(collect, ts))
       case _ => Err(Malformed(n.kind, "targets")))
    else if IsImport(n) then
      (match Lookup(n.fields, "names")
       case Some(Children(aliases)) => AliasNames(aliases)
       case _ => Err(Malformed(n.kind, "names")))
    else Ok([])
  }

  /** Builds `names` the way the analysis does, by appending and extending,
      and returns exactly the names `BoundNames` specifies. */
  method CollectNames(collect: Collector, node: Node) returns (r: Result<seq<string>>)
    ensures r == BoundNames(collect, node)
  {
    if node.Scope? {
      r := Ok([node.name]);
    } else if IsTargetBinder(node) {
      var target := Target(node);
      if target.Err? {
        return Err(target.error);
      }
      r := Ok(collect(target.value));
    } else if node.Ast? && node.kind == "Assign" {
      var targets := Lookup(node.fields, "targets");
      if !(targets.Some? && targets.value.Children?) {
        return Err(Malformed(node.kind, "targets"));
      }
      var names := CollectTargets(collect, targets.value.nodes);
      r := Ok(names);
    } else if IsImport(node) {
      var aliases := Lookup(node.fields, "names");
      if !(aliases.Some? && aliases.value.Children?) {
        return Err(Malformed(node.kind, "names"));
      }
      r := CollectAliases(aliases.value.nodes);
    } else {
      r := Ok([]);
    }
  }

  /** `for sub_node in node.targets: names.extend(collect_names(sub_node))` */
  method CollectTargets(collect: Collector, targets: seq<Node>) returns (names: seq<string>)
    ensures names == TargetsNames(collect, targets)
  {
    names := [];
    assert targets[0..] == targets;
    for i := 0 to |targets|
      invariant names + TargetsNames(collect, targets[i..]) == TargetsNames(collect, targets)
    {
      assert targets[i..][1..] == targets[i + 1..];
      names := names + collect(targets[i]);
    }
    assert targets[|targets|..] == [] && names + [] == names;
  }

  /** `names.extend(alias.asname or alias.name for alias in node.names)` */
  method CollectAliases(aliases: seq<Node>) returns (r: Result<seq<string>>)
    ensures r == AliasNames(aliases)
  {
    var names: seq<string> := [];
    PrefixedEmpty(AliasNames(aliases));
    assert aliases[0..] == aliases;
    for i := 0 to |aliases|
      invariant Prefixed(names, AliasNames(aliases[i..])) == AliasNames(aliases)
    {
      AliasNamesFrom(aliases, i);
      var a := AliasName(aliases[i]);
      if a.Err? {
        return Err(a.error);
      }
      PrefixedTwice(names, a.value, AliasNames(aliases[i + 1..]));
      names := names + [a.value];
    }
    assert aliases[|aliases|..] == [];
    assert names + [] == names;
    r := Ok(names);
  }

  lemma PrefixedEmpty(r: Result<seq<string>>)
    ensures Prefixed([], r) == r
  {
    if r.Ok? {
      assert [] + r.value == r.value;
    }
  }

  lemma PrefixedTwice(p: seq<string>, x: string, r: Result<seq<string>>)
    ensures Prefixed(p, Prefixed([x], r)) == Prefixed(p + [x], r)
  {
    if r.Ok? {
      assert p + ([x] + r.value) == (p + [x]) + r.value;
    }
  }

  lemma AliasNamesFrom(aliases: seq<Node>, i: nat)
    requires i < |aliases|
    ensures AliasNames(aliases[i..]) ==
              match AliasName(aliases[i])
              case Err(e) => Err(e)
              case Ok(x) => Prefixed([x], AliasNames(aliases[i + 1..]))
  {
  }

  /** Assignment targets contribute their names target by target: the names
      of `xs + ys` are those of `xs` followed by those of `ys`. */
  lemma {:induction false} TargetsInOrder(collect: Collector, xs: seq<Node>, ys: seq<Node>)
    ensures TargetsNames(collect, xs + ys) == TargetsNames(collect, xs) + TargetsNames(collect, ys)
  {
    if xs == [] {
      assert xs + ys == ys;
    } else {
      assert (xs + ys)[0] == xs[0];
      assert (xs + ys)[1..] == xs[1..] + ys;
      TargetsInOrder(collect, xs[1..], ys);
    }
  }

  /** An import binds exactly one name per alias, the i-th name coming from
      the i-th alias, and fails exactly when some alias is malformed. */
  lemma {:induction false} OneNamePerAlias(aliases: seq<Node>)
    ensures AliasNames(aliases).Ok? <==> forall i :: 0 <= i < |aliases| ==> AliasName(aliases[i]).Ok?
    ensures AliasNames(aliases).Ok? ==>
              |AliasNames(aliases).value| == |aliases| &&
              forall i :: 0 <= i < |aliases| ==> AliasNames(aliases).value[i] == AliasName(aliases[i]).value
  {
    if aliases != [] {
      OneNamePerAlias(aliases[1..]);
      assert forall i :: 1 <= i < |aliases| ==> aliases[i] == aliases[1..][i - 1];
    }
  }

  /** `import x as y` binds `y`, never `x`, and `name` is not even read;
      `import x` (no or empty `asname`) binds `x`. */
  lemma AsNameWins(kind: string, name: Value, asname: string, x: string)
    ensures asname != "" ==>
              AliasName(Ast(kind, [Field("name", name), Field("asname", Text(asname))])) == Ok(asname)
    ensures asname != "" ==> AliasName(Ast(kind, [Field("asname", Text(asname))])) == Ok(asname)
    ensures AliasName(Ast(kind, [Field("name", Text(x)), Field("asname", Nothing)])) == Ok(x)
    ensures AliasName(Ast(kind, [Field("name", Text(x)), Field("asname", Text(""))])) == Ok(x)
  {
    var fs := [Field("name", name), Field("asname", Text(asname))];
    assert fs[1..] == [Field("asname", Text(asname))];
    assert Lookup(fs, "asname") == Some(Text(asname));
    var gs := [Field("asname", Text(asname))];
    assert Lookup(gs, "asname") == Some(Text(asname));
    var hs := [Field("name", Text(x)), Field("asname", Nothing)];
    assert hs[1..] == [Field("asname", Nothing)];
    assert Lookup(hs, "asname") == Some(Nothing);
    assert Lookup(hs, "name") == Some(Text(x));
    var ks := [Field("name", Text(x)), Field("asname", Text(""))];
    assert ks[1..] == [Field("asname", Text(""))];
    assert Lookup(ks, "asname") == Some(Text(""));
    assert Lookup(ks, "name") == Some(Text(x));
  }

  // ---------------------------------------------------------------------
  // The symbol table
  // ---------------------------------------------------------------------

  /** The generation of a name; -1 stands for "no entry yet", so that the
      first binding creates the entry at generation 0. */
  function Generation(t: map<string, nat>, x: string): int
  {
    if x in t then t[x] else -1
  }

  /** `symtab[name].next_def()` on the table as a value. */
  function WithNextDef(t: map<string, nat>, x: string): (r: map<string, nat>)
    ensures Generation(r, x) == Generation(t, x) + 1
    ensures forall y :: y != x ==> Generation(r, y) == Generation(t, y)
    ensures r.Keys == t.Keys + {x}
  {
    t[x := if x in t then t[x] + 1 else 0]
  }

  /** The table after `next_def` on every name of `names`, in order. */
  function Advance(t: map<string, nat>, names: seq<string>): map<string, nat>
  {
    if names == [] then t else WithNextDef(Advance(t, names[..|names| - 1]), names[|names| - 1])
  }

  /** Each occurrence of a name advances its generation once; names that do
      not occur keep theirs. */
  lemma {:induction false} AdvanceCounts(t: map<string, nat>, names: seq<string>, x: string)
    ensures Generation(Advance(t, names), x) == Generation(t, x) + multiset(names)[x]
  {
    if names != [] {
      var init, last := names[..|names| - 1], names[|names| - 1];
      assert names == init + [last];
      AdvanceCounts(t, init, x);
    }
  }

  /** The table has an entry exactly for the names it had or that were bound. */
  lemma {:induction false} AdvanceKeys(t: map<string, nat>, names: seq<string>)
    ensures Advance(t, names).Keys == t.Keys + set x | x in names
  {
    if names != [] {
      var init, last := names[..|names| - 1], names[|names| - 1];
      assert names == init + [last];
      AdvanceKeys(t, init);
    }
  }

  /** Advancing two name lists one after the other is advancing their
      concatenation. */
  lemma {:induction false} AdvanceAppend(t: map<string, nat>, xs: seq<string>, ys: seq<string>)
    ensures Advance(t, xs + ys) == Advance(Advance(t, xs), ys)
  {
    if ys != [] {
      assert (xs + ys)[..|xs + ys| - 1] == xs + ys[..|ys| - 1];
      AdvanceAppend(t, xs, ys[..|ys| - 1]);
    } else {
      assert xs + ys == xs;
    }
  }

  /** The analysis' symbol table, whose entries advance in place. */
  class SymbolTable {
    var generations: map<string, nat>

    constructor ()
      ensures generations == map[]
    {
      generations := map[];
    }

    /** `self.symtab[name].next_def()`. */
    method NextDef(name: string)
      modifies this
      ensures generations == WithNextDef(old(generations), name)
    {
      generations := generations[name := if name in generations then generations[name] + 1 else 0];
    }
  }
}

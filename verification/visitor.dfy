/** `NodeVisitor` as a class whose methods update the context fields in place,
    each proved to compute exactly the corresponding function of module
    `Traversal`. With `collect` set, the visitor is the redefinition
    analyser, whose `visit` override advances the bound names first. */
module Visitor {
  import opened Errors
  import opened Acr
  import opened Redefinitions
  import Traversal

  class NodeVisitor {
    /** The current scope and block; None when the attribute is unset. */
    var scope: Option<Node>
    var block: Option<Node>
    /** The handler calls and `next_def` calls made so far. */
    var trace: seq<Traversal.Event>
    /** The symbol table the redefinition analysis advances. */
    const symtab: SymbolTable
    const strict: bool
    /** Every `visit_<Kind>` attribute the visitor has, inherited ones
        included: `visit_Constant` of the standard library's base class is
        always among them. */
    const handlers: map<string, Traversal.Handler>
    /** The name collector of the redefinition analyser; None for a plain visitor. */
    const collect: Option<Collector>

    function Config(): Traversal.Config
    {
      Traversal.Config(strict, handlers, collect)
    }

    function State(): Traversal.State
      reads this, symtab
    {
      Traversal.State(scope, block, symtab.generations, trace)
    }

    constructor (strict: bool, handlers: map<string, Traversal.Handler>, collect: Option<Collector>)
      ensures Config() == Traversal.Config(strict, handlers, collect)
      ensures State() == Traversal.State(None, None, map[], [])
      ensures fresh(symtab)
    {
      this.strict := strict;
      this.handlers := handlers;
      this.collect := collect;
      symtab := new SymbolTable();
      scope, block, trace := None, None, [];
    }

    /** `start`: the context is set to the module, the module visited, and the
        context unset again on a normal return. */
    method Start(tree: Node) returns (st: Status)
      modifies this, symtab
      ensures (st, State()) == Traversal.Start(Config(), tree, old(State()))
    {
      scope := Some(tree);
      block := Some(tree);
      var r := Visit(tree);
      if r.Err? {
        return Failed(r.error);
      }
      scope := None;
      block := None;
      st := Done;
    }

    /** `visit`, including the redefinition analyser's override: collect the
        bound names, advance each in order, then delegate. */
    method Visit(node: Node) returns (r: Result<Option<string>>)
      modifies this, symtab
      ensures (r, State()) == Traversal.Visit(Config(), node, old(State()))
      decreases node, 3
    {
      if collect.Some? {
        var names := CollectNames(collect.value, node);
        if names.Err? {
          return Err(names.error);
        }
        var ns := names.value;
        ghost var before := State();
        for i := 0 to |ns|
          invariant State() == Traversal.Rebind(before, ns[..i])
        {
          assert ns[..i + 1][..i] == ns[..i];
          symtab.NextDef(ns[i]);
          trace := trace + [Traversal.Rebound(ns[i], scope)];
        }
        assert ns[..|ns|] == ns;
      }
      r := BaseVisit(node);
    }

    /** `NodeVisitor.visit`. */
    method BaseVisit(node: Node) returns (r: Result<Option<string>>)
      modifies this, symtab
      ensures (r, State()) == Traversal.BaseVisit(Config(), node, old(State()))
      decreases node, 2
    {
      var kind := KindOf(node);
      var handler: Traversal.Handler;
      if kind in handlers {
        handler := handlers[kind];
      } else if strict {
        return Err(MissingHandler(kind));
      } else {
        handler := Traversal.DoNothing;
      }
      var reply := handler(node, State());
      trace := trace + [Traversal.Visited(node, scope, block)];
      if reply.Raised? {
        return Err(HandlerRaised(reply.message));
      }
      if node.Scope? {
        if scope.None? {
          return Err(Unset("scope"));
        }
        var previousScope := scope;
        scope := Some(node);
        if block.None? {
          return Err(Unset("block"));
        }
        var previousBlock := block;
        block := Some(node);
        var st := GenericVisit(node);
        if st.Failed? {
          return Err(st.error);
        }
        scope := previousScope;
        block := previousBlock;
      } else if node.Block? {
        if block.None? {
          return Err(Unset("block"));
        }
        var previousBlock := block;
        block := Some(node);
        var st := GenericVisit(node);
        if st.Failed? {
          return Err(st.error);
        }
        block := previousBlock;
      } else {
        var st := GenericVisit(node);
        if st.Failed? {
          return Err(st.error);
        }
      }
      r := Ok(reply.value);
    }

    /** `generic_visit`: the fields of a primitive node, or the FlowContainers
        of a Block, element by element. */
    method GenericVisit(node: Node) returns (st: Status)
      modifies this, symtab
      ensures (st, State()) == Traversal.GenericVisit(Config(), node, old(State()))
      decreases node, 1
    {
      if node.Ast? {
        st := VisitFields(node.fields);
        return;
      }
      if !IsBlock(node) {
        return Failed(NotABlock(KindOf(node)));
      }
      var containers := node.containers;
      for i := 0 to |containers|
        invariant Traversal.GenericVisit(Config(), node, old(State()))
                  == Traversal.VisitContainers(Config(), containers[i..], State())
      {
        assert containers[i..][1..] == containers[i + 1..];
        var items := containers[i].items;
        ghost var atContainer := State();
        for j := 0 to |items|
          invariant Traversal.VisitItems(Config(), items, atContainer)
                    == Traversal.VisitItems(Config(), items[j..], State())
        {
          assert items[j..][1..] == items[j + 1..];
          var item := items[j];
          if item.CodeBlock? {
            var code := item.code;
            ghost var atItem := State();
            for k := 0 to |code|
              invariant Traversal.VisitCode(Config(), code, atItem)
                        == Traversal.VisitCode(Config(), code[k..], State())
            {
              assert code[k..][1..] == code[k + 1..];
              var r := Visit(code[k]);
              if r.Err? {
                return Failed(r.error);
              }
            }
            assert code[|code|..] == [];
          } else if IsBlock(item) {
            var r := Visit(item);
            if r.Err? {
              return Failed(r.error);
            }
          } else if IsTerminal(item) {
            var r := Visit(item);
            if r.Err? {
              return Failed(r.error);
            }
          } else {
            return Failed(Unreachable(KindOf(item)));
          }
        }
        assert items[|items|..] == [];
      }
      assert containers[|containers|..] == [];
      st := Done;
    }

    /** The standard library's structural walk over a primitive node: every
        primitive sub-node, list fields element-wise. */
    method VisitFields(fields: seq<Field>) returns (st: Status)
      modifies this, symtab
      ensures (st, State()) == Traversal.VisitFields(Config(), fields, old(State()))
      decreases fields, 0
    {
      for i := 0 to |fields|
        invariant Traversal.VisitFields(Config(), fields, old(State()))
                  == Traversal.VisitFields(Config(), fields[i..], State())
      {
        assert fields[i..][1..] == fields[i + 1..];
        match fields[i].value {
          case Child(m) =>
            if m.Ast? {
              var r := Visit(m);
              if r.Err? {
                return Failed(r.error);
              }
            }
          case Children(ms) =>
            ghost var atField := State();
            for j := 0 to |ms|
              invariant Traversal.VisitAstList(Config(), ms, atField)
                        == Traversal.VisitAstList(Config(), ms[j..], State())
            {
              assert ms[j..][1..] == ms[j + 1..];
              if ms[j].Ast? {
                var r := Visit(ms[j]);
                if r.Err? {
                  return Failed(r.error);
                }
              }
            }
            assert ms[|ms|..] == [];
          case _ =>
        }
      }
      assert fields[|fields|..] == [];
      st := Done;
    }
  }
}

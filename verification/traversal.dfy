/** The context-tracking traversal engine (`NodeVisitor`) as functions from
    a visitor state to a result and a new state. The class in module
    `Visitor` is proved to compute exactly these functions; the lemmas here
    state what the engine promises. */
module Traversal {
  import opened Errors
  import opened Acr
  import opened Redefinitions

  /** What the visitor records while it walks. */
  datatype Event =
      /** The handler for `node` (or the no-op fallback) was invoked while the
          engine's current scope and block were `scope` and `block`. */
    | Visited(node: Node, scope: Option<Node>, block: Option<Node>)
      /** One `next_def` call on `name`, made while `scope` was current. */
    | Rebound(name: string, scope: Option<Node>)

  /** The visitor's mutable state: the two context fields (None: attribute
      unset), the symbol table's generations and the trace of events. */
  datatype State = State(scope: Option<Node>, block: Option<Node>, table: map<string, nat>, trace: seq<Event>)

  /** What a handler does: return a value (None is Python's None) or raise. */
  datatype Reply = Returned(value: Option<string>) | Raised(message: string)

  type Handler = (Node, State) -> Reply

  /** The fixed part of a visitor: strict mode, the `visit_<Kind>` registry
      (inherited methods included), and, for the redefinition analyser, its
      name collector. */
  datatype Config = Config(strict: bool, handlers: map<string, Handler>, collect: Option<Collector>)

  /** `do_nothing`: the fallback handler of lenient mode. */
  function DoNothing(n: Node, s: State): Reply
  {
    Returned(None)
  }

  /** The handler `visit` resolves for a node kind. */
  function Resolve(c: Config, kind: string): Result<Handler>
  {
    if kind in c.handlers then Ok(c.handlers[kind])
    else if c.strict then Err(MissingHandler(kind))
    else Ok(DoNothing)
  }

  /** The events of the `next_def` calls on `names`, in order. */
  function NameEvents(names: seq<string>, scope: Option<Node>): seq<Event>
  {
    if names == [] then []
    else NameEvents(names[..|names| - 1], scope) + [Rebound(names[|names| - 1], scope)]
  }

  /** The names of the `next_def` calls recorded in a trace, in order. */
  function ReboundNames(events: seq<Event>): seq<string>
  {
    if events == [] then []
    else
      var last := events[|events| - 1];
      ReboundNames(events[..|events| - 1]) + (if last.Rebound? then [last.name] else [])
  }

  /** The state after `for name in names: self.symtab[name].next_def()`. */
  function Rebind(s: State, names: seq<string>): State
  {
    s.(table := Advance(s.table, names), trace := s.trace + NameEvents(names, s.scope))
  }

  function AsStatus(o: (Result<Option<string>>, State)): (Status, State)
  {
    if o.0.Err? then (Failed(o.0.error), o.1) else (Done, o.1)
  }

  // ---------------------------------------------------------------------
  // The engine, one function per method and loop of the source
  // ---------------------------------------------------------------------

  /** `visit` as the visitor sees it: for the redefinition analyser, the
      overriding `visit` first advances the bound names, then delegates. */
  function Visit(c: Config, n: Node, s: State): (Result<Option<string>>, State)
    decreases n, 3
  {
    match c.collect
    case None => BaseVisit(c, n, s)
    case Some(collect) =>
      match BoundNames(collect, n)
      case Err(e) => (Err(e), s)
      case Ok(names) => BaseVisit(c, n, Rebind(s, names))
  }

  /** `NodeVisitor.visit`: resolve and run the handler, then descend with the
      context switched for a Scope (both fields) or a Block (block only),
      and restore the saved context when the descent returns normally. */
  function BaseVisit(c: Config, n: Node, s: State): (Result<Option<string>>, State)
    decreases n, 2
  {
    match Resolve(c, KindOf(n))
    case Err(e) => (Err(e), s)
    case Ok(handler) =>
      var reply := handler(n, s);
      var s1 := s.(trace := s.trace + [Visited(n, s.scope, s.block)]);
      if reply.Raised? then (Err(HandlerRaised(reply.message)), s1)
      else if n.Scope? then
        if s1.scope.None? then (Err(Unset("scope")), s1)
        else
          var s2 := s1.(scope := Some(n));
          if s2.block.None? then (Err(Unset("block")), s2)
          else
            var (st, s3) := GenericVisit(c, n, s2.(block := Some(n)));
            if st.Failed? then (Err(st.error), s3)
            else (Ok(reply.value), s3.(scope := s1.scope, block := s1.block))
      else if n.Block? then
        if s1.block.None? then (Err(Unset("block")), s1)
        else
          var (st, s3) := GenericVisit(c, n, s1.(block := Some(n)));
          if st.Failed? then (Err(st.error), s3)
          else (Ok(reply.value), s3.(block := s1.block))
      else
        var (st, s3) := GenericVisit(c, n, s1);
        if st.Failed? then (Err(st.error), s3)
        else (Ok(reply.value), s3)
  }

  /** `generic_visit`: a primitive node's fields, a Block's FlowContainers;
      anything else fails the `assert isinstance(node, Block)`. */
  function GenericVisit(c: Config, n: Node, s: State): (Status, State)
    decreases n, 1
  {
    match n
    case Ast(_, fields) => VisitFields(c, fields, s)
    case Scope(_, _, cs) => VisitContainers(c, cs, s)
    case Block(_, _, cs) => VisitContainers(c, cs, s)
    case CodeBlock(_) => (Failed(NotABlock(KindOf(n))), s)
    case Other(k) => (Failed(NotABlock(k)), s)
  }

  /** The standard structural walk over a primitive node's fields. */
  function VisitFields(c: Config, fields: seq<Field>, s: State): (Status, State)
    decreases fields, 0
  {
    if fields == [] then (Done, s)
    else
      var (st, s1) := VisitValue(c, fields[0].value, s);
      if st.Failed? then (st, s1) else VisitFields(c, fields[1..], s1)
  }

  /** One field: a primitive sub-node is visited, a list element-wise. */
  function VisitValue(c: Config, v: Value, s: State): (Status, State)
    decreases v, 1
  {
    match v
    case Child(m) => if m.Ast? then AsStatus(Visit(c, m, s)) else (Done, s)
    case Children(ms) => VisitAstList(c, ms, s)
    case _ => (Done, s)
  }

  function VisitAstList(c: Config, ms: seq<Node>, s: State): (Status, State)
    decreases ms, 0
  {
    if ms == [] then (Done, s)
    else
      var (st, s1) := if ms[0].Ast? then AsStatus(Visit(c, ms[0], s)) else (Done, s);
      if st.Failed? then (st, s1) else VisitAstList(c, ms[1..], s1)
  }

  /** A Block's FlowContainers in declaration order. */
  function VisitContainers(c: Config, cs: seq<Container>, s: State): (Status, State)
    decreases cs, 0
  {
    if cs == [] then (Done, s)
    else
      var (st, s1) := VisitItems(c, cs[0].items, s);
      if st.Failed? then (st, s1) else VisitContainers(c, cs[1..], s1)
  }

  /** The elements of one FlowContainer, in order. */
  function VisitItems(c: Config, items: seq<Node>, s: State): (Status, State)
    decreases items, 0
  {
    if items == [] then (Done, s)
    else
      var (st, s1) := VisitItem(c, items[0], s);
      if st.Failed? then (st, s1) else VisitItems(c, items[1..], s1)
  }

  /** One element: a CodeBlock's statements, a nested Block or a terminal
      statement are visited; any other element is unreachable. */
  function VisitItem(c: Config, item: Node, s: State): (Status, State)
    decreases item, 4
  {
    if item.CodeBlock? then VisitCode(c, item.code, s)
    else if IsBlock(item) || IsTerminal(item) then AsStatus(Visit(c, item, s))
    else (Failed(Unreachable(KindOf(item))), s)
  }

  function VisitCode(c: Config, code: seq<Node>, s: State): (Status, State)
    decreases code, 0
  {
    if code == [] then (Done, s)
    else
      var (st, s1) := AsStatus(Visit(c, code[0], s));
      if st.Failed? then (st, s1) else VisitCode(c, code[1..], s1)
  }

  /** `start`: set both context fields to the module, visit it, and unset
      them again (`del`), which happens only on a normal return. */
  function Start(c: Config, m: Node, s: State): (Status, State)
  {
    var (r, s1) := Visit(c, m, s.(scope := Some(m), block := Some(m)));
    if r.Err? then (Failed(r.error), s1)
    else (Done, s1.(scope := None, block := None))
  }

  // ---------------------------------------------------------------------
  // The reference trace: what a traversal that returns normally records
  // ---------------------------------------------------------------------

  /** The scope a node's descendants are walked in. */
  function InnerScope(n: Node, scope: Option<Node>): Option<Node>
  {
    if n.Scope? then Some(n) else scope
  }

  /** The block a node's descendants are walked in. */
  function InnerBlock(n: Node, block: Option<Node>): Option<Node>
  {
    if IsBlock(n) then Some(n) else block
  }

  /** The `next_def` events of the redefinition analyser for one node. */
  function RebindEvents(c: Config, n: Node, scope: Option<Node>): seq<Event>
  {
    match c.collect
    case None => []
    case Some(collect) =>
      match BoundNames(collect, n)
      case Ok(names) => NameEvents(names, scope)
      case Err(_) => []
  }

  /** Pre-order over the tree in descent order, each handler call annotated
      with the scope and block of its enclosing Scope and Block. */
  function Expected(c: Config, n: Node, scope: Option<Node>, block: Option<Node>): seq<Event>
    decreases n, 3
  {
    RebindEvents(c, n, scope) + [Visited(n, scope, block)]
      + ExpectedBelow(c, n, InnerScope(n, scope), InnerBlock(n, block))
  }

  function ExpectedBelow(c: Config, n: Node, scope: Option<Node>, block: Option<Node>): seq<Event>
    decreases n, 1
  {
    match n
    case Ast(_, fields) => ExpectedFields(c, fields, scope, block)
    case Scope(_, _, cs) => ExpectedContainers(c, cs, scope, block)
    case Block(_, _, cs) => ExpectedContainers(c, cs, scope, block)
    case _ => []
  }

  function ExpectedFields(c: Config, fields: seq<Field>, scope: Option<Node>, block: Option<Node>): seq<Event>
    decreases fields, 0
  {
    if fields == [] then []
    else ExpectedValue(c, fields[0].value, scope, block) + ExpectedFields(c, fields[1..], scope, block)
  }

  function ExpectedValue(c: Config, v: Value, scope: Option<Node>, block: Option<Node>): seq<Event>
    decreases v, 1
  {
    match v
    case Child(m) => if m.Ast? then Expected(c, m, scope, block) else []
    case Children(ms) => ExpectedAstList(c, ms, scope, block)
    case _ => []
  }

  function ExpectedAstList(c: Config, ms: seq<Node>, scope: Option<Node>, block: Option<Node>): seq<Event>
    decreases ms, 0
  {
    if ms == [] then []
    else
      var first := if ms[0].Ast? then Expected(c, ms[0], scope, block) else [];
      first + ExpectedAstList(c, ms[1..], scope, block)
  }

  function ExpectedContainers(c: Config, cs: seq<Container>, scope: Option<Node>, block: Option<Node>): seq<Event>
    decreases cs, 0
  {
    if cs == [] then []
    else ExpectedItems(c, cs[0].items, scope, block) + ExpectedContainers(c, cs[1..], scope, block)
  }

  function ExpectedItems(c: Config, items: seq<Node>, scope: Option<Node>, block: Option<Node>): seq<Event>
    decreases items, 0
  {
    if items == [] then []
    else ExpectedItem(c, items[0], scope, block) + ExpectedItems(c, items[1..], scope, block)
  }

  function ExpectedItem(c: Config, item: Node, scope: Option<Node>, block: Option<Node>): seq<Event>
    decreases item, 4
  {
    if item.CodeBlock? then ExpectedCode(c, item.code, scope, block)
    else if IsBlock(item) || IsTerminal(item) then Expected(c, item, scope, block)
    else []
  }

  function ExpectedCode(c: Config, code: seq<Node>, scope: Option<Node>, block: Option<Node>): seq<Event>
    decreases code, 0
  {
    if code == [] then []
    else Expected(c, code[0], scope, block) + ExpectedCode(c, code[1..], scope, block)
  }

  // ---------------------------------------------------------------------
  // Soundness of the engine with respect to the reference trace
  // ---------------------------------------------------------------------

  /** `t` extends the trace of `s`, and the symbol table changed by exactly
      the `next_def` calls recorded in between, in order. */
  ghost predicate Grows(s: State, t: State)
  {
    s.trace <= t.trace && t.table == Advance(s.table, ReboundNames(t.trace[|s.trace|..]))
  }

  /** The context fields are back to what they were in `s`. */
  ghost predicate Restored(s: State, t: State)
  {
    t.scope == s.scope && t.block == s.block
  }

  lemma {:induction false} ReboundNamesAppend(xs: seq<Event>, ys: seq<Event>)
    ensures ReboundNames(xs + ys) == ReboundNames(xs) + ReboundNames(ys)
  {
    if ys == [] {
      assert xs + ys == xs;
    } else {
      assert (xs + ys)[..|xs + ys| - 1] == xs + ys[..|ys| - 1];
      ReboundNamesAppend(xs, ys[..|ys| - 1]);
    }
  }

  lemma {:induction false} ReboundNamesOfNameEvents(names: seq<string>, scope: Option<Node>)
    ensures ReboundNames(NameEvents(names, scope)) == names
  {
    if names != [] {
      var init := names[..|names| - 1];
      ReboundNamesOfNameEvents(init, scope);
      ReboundNamesAppend(NameEvents(init, scope), [Rebound(names[|names| - 1], scope)]);
      assert ReboundNames([Rebound(names[|names| - 1], scope)]) == [names[|names| - 1]];
      assert init + [names[|names| - 1]] == names;
    }
  }

  lemma GrowsRefl(s: State)
    ensures Grows(s, s)
  {
  }

  lemma GrowsTrans(a: State, b: State, c: State)
    requires Grows(a, b) && Grows(b, c)
    ensures Grows(a, c)
  {
    var d1, d2 := b.trace[|a.trace|..], c.trace[|b.trace|..];
    assert c.trace[|a.trace|..] == d1 + d2;
    ReboundNamesAppend(d1, d2);
    AdvanceAppend(a.table, ReboundNames(d1), ReboundNames(d2));
  }

  lemma GrowsRebind(s: State, names: seq<string>)
    ensures Grows(s, Rebind(s, names))
  {
    var t := Rebind(s, names);
    assert t.trace[|s.trace|..] == NameEvents(names, s.scope);
    ReboundNamesOfNameEvents(names, s.scope);
  }

  lemma GrowsVisited(s: State, n: Node)
    ensures Grows(s, s.(trace := s.trace + [Visited(n, s.scope, s.block)]))
  {
  }

  /** The main theorem. When `visit` returns normally, the scope and block
      are restored, and the trace grew by the reference pre-order: the node's
      names rebound and its handler called in the enclosing context, before
      any descendant, then the descendants in descent order, each in the
      context of its nearest enclosing Scope and Block. */
  lemma {:induction false} VisitSound(c: Config, n: Node, s: State)
    ensures Visit(c, n, s).0.Ok? ==>
              Restored(s, Visit(c, n, s).1) &&
              Visit(c, n, s).1.trace == s.trace + Expected(c, n, s.scope, s.block)
    decreases n, 4
  {
    if c.collect.None? {
      BaseVisitSound(c, n, s);
    } else if BoundNames(c.collect.value, n).Ok? {
      ReboundSound(c, n, s, BoundNames(c.collect.value, n).value);
    }
  }

  /** `VisitSound` for the redefinition analyser, once the names are read. */
  lemma {:induction false} ReboundSound(c: Config, n: Node, s: State, names: seq<string>)
    requires c.collect.Some? && BoundNames(c.collect.value, n) == Ok(names)
    ensures Visit(c, n, s).0.Ok? ==>
              Restored(s, Visit(c, n, s).1) &&
              Visit(c, n, s).1.trace == s.trace + Expected(c, n, s.scope, s.block)
    decreases n, 3
  {
    var s1 := Rebind(s, names);
    assert Visit(c, n, s) == BaseVisit(c, n, s1);
    assert RebindEvents(c, n, s.scope) == NameEvents(names, s.scope);
    BaseVisitSound(c, n, s1);
  }

  lemma {:induction false} BaseVisitSound(c: Config, n: Node, s: State)
    ensures BaseVisit(c, n, s).0.Ok? ==>
              Restored(s, BaseVisit(c, n, s).1) &&
              BaseVisit(c, n, s).1.trace == s.trace + [Visited(n, s.scope, s.block)]
                + ExpectedBelow(c, n, InnerScope(n, s.scope), InnerBlock(n, s.block))
    decreases n, 2
  {
    match Resolve(c, KindOf(n))
    case Err(_) =>
    case Ok(handler) =>
      var s1 := s.(trace := s.trace + [Visited(n, s.scope, s.block)]);
      if n.Scope? {
        GenericSound(c, n, s1.(scope := Some(n), block := Some(n)));
      } else if n.Block? {
        GenericSound(c, n, s1.(block := Some(n)));
      } else {
        GenericSound(c, n, s1);
      }
  }

  lemma {:induction false} GenericSound(c: Config, n: Node, s: State)
    ensures GenericVisit(c, n, s).0.Done? ==>
              Restored(s, GenericVisit(c, n, s).1) &&
              GenericVisit(c, n, s).1.trace == s.trace + ExpectedBelow(c, n, s.scope, s.block)
    decreases n, 1
  {
    match n
    case Ast(_, fields) => FieldsSound(c, fields, s);
    case Scope(_, _, cs) => ContainersSound(c, cs, s);
    case Block(_, _, cs) => ContainersSound(c, cs, s);
    case _ =>
  }

  lemma {:induction false} FieldsSound(c: Config, fields: seq<Field>, s: State)
    ensures VisitFields(c, fields, s).0.Done? ==>
              Restored(s, VisitFields(c, fields, s).1) &&
              VisitFields(c, fields, s).1.trace == s.trace + ExpectedFields(c, fields, s.scope, s.block)
    decreases fields, 0
  {
    if fields == [] {
    } else {
      var (st, s1) := VisitValue(c, fields[0].value, s);
      ValueSound(c, fields[0].value, s);
      if st.Done? {
        FieldsSound(c, fields[1..], s1);
      }
    }
  }

  lemma {:induction false} ValueSound(c: Config, v: Value, s: State)
    ensures VisitValue(c, v, s).0.Done? ==>
              Restored(s, VisitValue(c, v, s).1) &&
              VisitValue(c, v, s).1.trace == s.trace + ExpectedValue(c, v, s.scope, s.block)
    decreases v, 1
  {
    match v
    case Child(m) =>
      if m.Ast? {
        VisitSound(c, m, s);
      } else {
      }
    case Children(ms) =>
      AstListSound(c, ms, s);
    case _ =>
  }

  lemma {:induction false} AstListSound(c: Config, ms: seq<Node>, s: State)
    ensures VisitAstList(c, ms, s).0.Done? ==>
              Restored(s, VisitAstList(c, ms, s).1) &&
              VisitAstList(c, ms, s).1.trace == s.trace + ExpectedAstList(c, ms, s.scope, s.block)
    decreases ms, 0
  {
    if ms == [] {
    } else {
      if ms[0].Ast? {
        VisitSound(c, ms[0], s);
      } else {
      }
      var (st, s1) := if ms[0].Ast? then AsStatus(Visit(c, ms[0], s)) else (Done, s);
      if st.Done? {
        AstListSound(c, ms[1..], s1);
      }
    }
  }

  lemma {:induction false} ContainersSound(c: Config, cs: seq<Container>, s: State)
    ensures VisitContainers(c, cs, s).0.Done? ==>
              Restored(s, VisitContainers(c, cs, s).1) &&
              VisitContainers(c, cs, s).1.trace == s.trace + ExpectedContainers(c, cs, s.scope, s.block)
    decreases cs, 0
  {
    if cs == [] {
    } else {
      var (st, s1) := VisitItems(c, cs[0].items, s);
      ItemsSound(c, cs[0].items, s);
      if st.Done? {
        ContainersSound(c, cs[1..], s1);
      }
    }
  }

  lemma {:induction false} ItemsSound(c: Config, items: seq<Node>, s: State)
    ensures VisitItems(c, items, s).0.Done? ==>
              Restored(s, VisitItems(c, items, s).1) &&
              VisitItems(c, items, s).1.trace == s.trace + ExpectedItems(c, items, s.scope, s.block)
    decreases items, 0
  {
    if items == [] {
    } else {
      var (st, s1) := VisitItem(c, items[0], s);
      ItemSound(c, items[0], s);
      if st.Done? {
        ItemsSound(c, items[1..], s1);
      }
    }
  }

  lemma {:induction false} ItemSound(c: Config, item: Node, s: State)
    ensures VisitItem(c, item, s).0.Done? ==>
              Restored(s, VisitItem(c, item, s).1) &&
              VisitItem(c, item, s).1.trace == s.trace + ExpectedItem(c, item, s.scope, s.block)
    decreases item, 5
  {
    if item.CodeBlock? {
      CodeSound(c, item.code, s);
    } else if IsBlock(item) || IsTerminal(item) {
      VisitSound(c, item, s);
    } else {
    }
  }

  lemma {:induction false} CodeSound(c: Config, code: seq<Node>, s: State)
    ensures VisitCode(c, code, s).0.Done? ==>
              Restored(s, VisitCode(c, code, s).1) &&
              VisitCode(c, code, s).1.trace == s.trace + ExpectedCode(c, code, s.scope, s.block)
    decreases code, 0
  {
    if code == [] {
    } else {
      var (st, s1) := AsStatus(Visit(c, code[0], s));
      VisitSound(c, code[0], s);
      if st.Done? {
        CodeSound(c, code[1..], s1);
      }
    }
  }

  /** Whatever way `visit` ends, normally or by an error, the trace only
      grows and the symbol table changed by exactly the `next_def` calls
      recorded in it, in order. */
  lemma {:induction false} VisitTable(c: Config, n: Node, s: State)
    ensures Grows(s, Visit(c, n, s).1)
    decreases n, 3
  {
    match c.collect
    case None =>
      BaseVisitTable(c, n, s);
    case Some(collect) =>
      match BoundNames(collect, n)
      case Err(_) =>
        GrowsRefl(s);
      case Ok(names) =>
        var s1 := Rebind(s, names);
        GrowsRebind(s, names);
        BaseVisitTable(c, n, s1);
        GrowsTrans(s, s1, BaseVisit(c, n, s1).1);
  }

  lemma {:induction false} BaseVisitTable(c: Config, n: Node, s: State)
    ensures Grows(s, BaseVisit(c, n, s).1)
    decreases n, 2
  {
    match Resolve(c, KindOf(n))
    case Err(_) =>
      GrowsRefl(s);
    case Ok(handler) =>
      var s1 := s.(trace := s.trace + [Visited(n, s.scope, s.block)]);
      GrowsVisited(s, n);
      if handler(n, s).Raised? {
      } else if n.Scope? {
        if s1.scope.Some? && s1.block.Some? {
          var s2 := s1.(scope := Some(n), block := Some(n));
          GenericTable(c, n, s2);
          GrowsTrans(s, s2, GenericVisit(c, n, s2).1);
        }
      } else if n.Block? {
        if s1.block.Some? {
          var s2 := s1.(block := Some(n));
          GenericTable(c, n, s2);
          GrowsTrans(s, s2, GenericVisit(c, n, s2).1);
        }
      } else {
        GenericTable(c, n, s1);
        GrowsTrans(s, s1, GenericVisit(c, n, s1).1);
      }
  }

  lemma {:induction false} GenericTable(c: Config, n: Node, s: State)
    ensures Grows(s, GenericVisit(c, n, s).1)
    decreases n, 1
  {
    match n
    case Ast(_, fields) => FieldsTable(c, fields, s);
    case Scope(_, _, cs) => ContainersTable(c, cs, s);
    case Block(_, _, cs) => ContainersTable(c, cs, s);
    case _ => GrowsRefl(s);
  }

  lemma {:induction false} FieldsTable(c: Config, fields: seq<Field>, s: State)
    ensures Grows(s, VisitFields(c, fields, s).1)
    decreases fields, 0
  {
    if fields == [] {
      GrowsRefl(s);
    } else {
      var (st, s1) := VisitValue(c, fields[0].value, s);
      ValueTable(c, fields[0].value, s);
      if st.Done? {
        FieldsTable(c, fields[1..], s1);
        GrowsTrans(s, s1, VisitFields(c, fields[1..], s1).1);
      }
    }
  }

  lemma {:induction false} ValueTable(c: Config, v: Value, s: State)
    ensures Grows(s, VisitValue(c, v, s).1)
    decreases v, 1
  {
    match v
    case Child(m) =>
      if m.Ast? {
        VisitTable(c, m, s);
      } else {
        GrowsRefl(s);
      }
    case Children(ms) =>
      AstListTable(c, ms, s);
    case _ =>
      GrowsRefl(s);
  }

  lemma {:induction false} AstListTable(c: Config, ms: seq<Node>, s: State)
    ensures Grows(s, VisitAstList(c, ms, s).1)
    decreases ms, 0
  {
    if ms == [] {
      GrowsRefl(s);
    } else {
      if ms[0].Ast? {
        VisitTable(c, ms[0], s);
      } else {
        GrowsRefl(s);
      }
      var (st, s1) := if ms[0].Ast? then AsStatus(Visit(c, ms[0], s)) else (Done, s);
      if st.Done? {
        AstListTable(c, ms[1..], s1);
        GrowsTrans(s, s1, VisitAstList(c, ms[1..], s1).1);
      }
    }
  }

  lemma {:induction false} ContainersTable(c: Config, cs: seq<Container>, s: State)
    ensures Grows(s, VisitContainers(c, cs, s).1)
    decreases cs, 0
  {
    if cs == [] {
      GrowsRefl(s);
    } else {
      var (st, s1) := VisitItems(c, cs[0].items, s);
      ItemsTable(c, cs[0].items, s);
      if st.Done? {
        ContainersTable(c, cs[1..], s1);
        GrowsTrans(s, s1, VisitContainers(c, cs[1..], s1).1);
      }
    }
  }

  lemma {:induction false} ItemsTable(c: Config, items: seq<Node>, s: State)
    ensures Grows(s, VisitItems(c, items, s).1)
    decreases items, 0
  {
    if items == [] {
      GrowsRefl(s);
    } else {
      var (st, s1) := VisitItem(c, items[0], s);
      ItemTable(c, items[0], s);
      if st.Done? {
        ItemsTable(c, items[1..], s1);
        GrowsTrans(s, s1, VisitItems(c, items[1..], s1).1);
      }
    }
  }

  lemma {:induction false} ItemTable(c: Config, item: Node, s: State)
    ensures Grows(s, VisitItem(c, item, s).1)
    decreases item, 4
  {
    if item.CodeBlock? {
      CodeTable(c, item.code, s);
    } else if IsBlock(item) || IsTerminal(item) {
      VisitTable(c, item, s);
    } else {
      GrowsRefl(s);
    }
  }

  lemma {:induction false} CodeTable(c: Config, code: seq<Node>, s: State)
    ensures Grows(s, VisitCode(c, code, s).1)
    decreases code, 0
  {
    if code == [] {
      GrowsRefl(s);
    } else {
      var (st, s1) := AsStatus(Visit(c, code[0], s));
      VisitTable(c, code[0], s);
      if st.Done? {
        CodeTable(c, code[1..], s1);
        GrowsTrans(s, s1, VisitCode(c, code[1..], s1).1);
      }
    }
  }
}

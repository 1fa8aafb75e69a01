/** The guarantees of the traversal engine and of the redefinition analysis,
    stated about the functions of module `Traversal`. */
module EngineFacts {
  import opened Errors
  import opened Acr
  import opened Redefinitions
  import opened Traversal

  /** `start` on a module: when the visit returns normally, both context
      fields are unset again and the module was walked with the module as
      its scope and block; in every case the symbol table changed by exactly
      the `next_def` calls recorded. */
  lemma StartSound(c: Config, m: Node, s: State)
    ensures Grows(s, Start(c, m, s).1)
    ensures Start(c, m, s).0.Done? ==>
              Start(c, m, s).1.scope.None? && Start(c, m, s).1.block.None? &&
              Start(c, m, s).1.trace == s.trace + Expected(c, m, Some(m), Some(m))
  {
    var s0 := s.(scope := Some(m), block := Some(m));
    VisitSound(c, m, s0);
    VisitTable(c, m, s0);
  }

  /** `del self.scope, self.block` runs only on a normal return: a module
      whose `if` body holds a `pass` outside any CodeBlock fails, and leaves
      the scope at the module and the block at the `if`. */
  lemma StartLeavesContextOnError()
    ensures var inner := Block("If", [], [Container("body", [Ast("Pass", [])])]);
            var m := Scope("Module", "", [Container("body", [inner])]);
            Start(Config(false, map[], None), m, State(None, None, map[], []))
            == (Failed(Unreachable("Pass")),
                State(Some(m), Some(inner), map[], [Visited(m, Some(m), Some(m)), Visited(inner, Some(m), Some(m))]))
  {
    var pass := Ast("Pass", []);
    var inner := Block("If", [], [Container("body", [pass])]);
    var m := Scope("Module", "", [Container("body", [inner])]);
    var c := Config(false, map[], None);
    var s2 := State(Some(m), Some(inner), map[], [Visited(m, Some(m), Some(m)), Visited(inner, Some(m), Some(m))]);
    assert VisitItem(c, pass, s2) == (Failed(Unreachable("Pass")), s2);
    assert VisitItems(c, [pass], s2) == (Failed(Unreachable("Pass")), s2);
    assert GenericVisit(c, inner, s2) == (Failed(Unreachable("Pass")), s2);
    var s1 := State(Some(m), Some(m), map[], [Visited(m, Some(m), Some(m))]);
    assert Resolve(c, KindOf(inner)) == Ok(DoNothing);
    assert s1.(trace := s1.trace + [Visited(inner, s1.scope, s1.block)]).(block := Some(inner)) == s2;
    assert BaseVisit(c, inner, s1) == (Err(Unreachable("Pass")), s2);
    assert Visit(c, inner, s1) == (Err(Unreachable("Pass")), s2);
    assert VisitItems(c, [inner], s1) == (Failed(Unreachable("Pass")), s2);
    assert GenericVisit(c, m, s1) == (Failed(Unreachable("Pass")), s2);
    var s0 := State(Some(m), Some(m), map[], []);
    assert Resolve(c, KindOf(m)) == Ok(DoNothing);
    assert s0.(trace := s0.trace + [Visited(m, s0.scope, s0.block)]).(scope := Some(m)).(block := Some(m)) == s1;
    assert BaseVisit(c, m, s0) == (Err(Unreachable("Pass")), s2);
    assert Visit(c, m, s0) == (Err(Unreachable("Pass")), s2);
  }

  /** `visit` resolves the handler first: a missing handler in strict mode
      fails with nothing recorded; otherwise the handler is called on the
      incoming state, before any context switch, its raise is the visit's
      error, and a normal return yields the handler's value. */
  lemma {:induction false} HandlerRunsFirst(c: Config, n: Node, s: State)
    ensures Resolve(c, KindOf(n)).Err? ==> BaseVisit(c, n, s) == (Err(Resolve(c, KindOf(n)).error), s)
    ensures Resolve(c, KindOf(n)).Ok? ==>
              var handler := Resolve(c, KindOf(n)).value;
              s.trace + [Visited(n, s.scope, s.block)] <= BaseVisit(c, n, s).1.trace &&
              (handler(n, s).Raised? ==> BaseVisit(c, n, s).0 == Err(HandlerRaised(handler(n, s).message))) &&
              (BaseVisit(c, n, s).0.Ok? ==> BaseVisit(c, n, s).0.value == handler(n, s).value)
  {
    match Resolve(c, KindOf(n))
    case Err(_) =>
    case Ok(handler) =>
      var s1 := s.(trace := s.trace + [Visited(n, s.scope, s.block)]);
      if handler(n, s).Raised? {
      } else if n.Scope? {
        if s.scope.Some? && s.block.Some? {
          GenericTable(c, n, s1.(scope := Some(n), block := Some(n)));
        }
      } else if n.Block? {
        if s.block.Some? {
          GenericTable(c, n, s1.(block := Some(n)));
        }
      } else {
        GenericTable(c, n, s1);
      }
  }

  /** A kind without a `visit_<Kind>` method: strict mode raises before
      anything happens; lenient mode calls the no-op, still descends, and a
      normal return yields None. */
  lemma NoHandlerRegistered(c: Config, n: Node, s: State)
    requires KindOf(n) !in c.handlers
    ensures c.strict ==> BaseVisit(c, n, s) == (Err(MissingHandler(KindOf(n))), s)
    ensures !c.strict && BaseVisit(c, n, s).0.Ok? ==>
              BaseVisit(c, n, s).0.value.None? &&
              BaseVisit(c, n, s).1.trace == s.trace + [Visited(n, s.scope, s.block)]
                + ExpectedBelow(c, n, InnerScope(n, s.scope), InnerBlock(n, s.block))
  {
    BaseVisitSound(c, n, s);
  }

  /** The context of a descent: a Scope's children are walked with both
      fields set to the Scope, a plain Block's with only the block switched
      and the scope kept; on a normal return both fields are back to their
      prior values. */
  lemma DescentContext(c: Config, n: Node, s: State)
    requires IsBlock(n)
    ensures BaseVisit(c, n, s).0.Ok? ==>
              BaseVisit(c, n, s).1.scope == s.scope && BaseVisit(c, n, s).1.block == s.block
    ensures n.Scope? && BaseVisit(c, n, s).0.Ok? ==>
              BaseVisit(c, n, s).1.trace ==
                s.trace + [Visited(n, s.scope, s.block)] + ExpectedContainers(c, n.containers, Some(n), Some(n))
    ensures n.Block? && BaseVisit(c, n, s).0.Ok? ==>
              BaseVisit(c, n, s).1.trace ==
                s.trace + [Visited(n, s.scope, s.block)] + ExpectedContainers(c, n.containers, s.scope, Some(n))
  {
    BaseVisitSound(c, n, s);
  }

  /** Some FlowContainer of `cs` holds an element it may not hold. */
  predicate HoldsStray(cs: seq<Container>)
  {
    exists i, j :: 0 <= i < |cs| && 0 <= j < |cs[i].items| && !IsFlowItem(cs[i].items[j])
  }

  lemma {:induction false} StrayItemsFail(c: Config, items: seq<Node>, s: State)
    requires exists j :: 0 <= j < |items| && !IsFlowItem(items[j])
    ensures VisitItems(c, items, s).0.Failed?
    decreases items
  {
    var (st, s1) := VisitItem(c, items[0], s);
    if st.Done? {
      var j :| 0 <= j < |items| && !IsFlowItem(items[j]);
      assert j != 0;
      assert items[1..][j - 1] == items[j];
      StrayItemsFail(c, items[1..], s1);
    }
  }

  lemma {:induction false} StrayContainersFail(c: Config, cs: seq<Container>, s: State)
    requires HoldsStray(cs)
    ensures VisitContainers(c, cs, s).0.Failed?
    decreases cs
  {
    var i, j :| 0 <= i < |cs| && 0 <= j < |cs[i].items| && !IsFlowItem(cs[i].items[j]);
    var (st, s1) := VisitItems(c, cs[0].items, s);
    if i == 0 {
      StrayItemsFail(c, cs[0].items, s);
    } else if st.Done? {
      assert cs[1..][i - 1] == cs[i];
      StrayContainersFail(c, cs[1..], s1);
    }
  }

  /** A Scope or Block one of whose FlowContainers holds an element other
      than a CodeBlock, a Block or a terminal statement never returns
      normally from `visit`, whatever the handlers and the state. */
  lemma StrayItemRaises(c: Config, n: Node, s: State)
    requires IsBlock(n) && HoldsStray(n.containers)
    ensures BaseVisit(c, n, s).0.Err?
    ensures Visit(c, n, s).0.Err?
  {
    forall t: State
      ensures BaseVisit(c, n, t).0.Err?
    {
      forall u: State
        ensures GenericVisit(c, n, u).0.Failed?
      {
        StrayContainersFail(c, n.containers, u);
      }
    }
  }

  /** Descent order: the FlowContainers of a Block are walked one after the
      other, in declaration order. */
  lemma {:induction false} ContainersInOrder(c: Config, xs: seq<Container>, ys: seq<Container>, scope: Option<Node>, block: Option<Node>)
    ensures ExpectedContainers(c, xs + ys, scope, block)
            == ExpectedContainers(c, xs, scope, block) + ExpectedContainers(c, ys, scope, block)
  {
    if xs == [] {
      assert xs + ys == ys;
    } else {
      assert (xs + ys)[0] == xs[0];
      assert (xs + ys)[1..] == xs[1..] + ys;
      ContainersInOrder(c, xs[1..], ys, scope, block);
    }
  }

  /** Descent order: the elements of a FlowContainer, in order. */
  lemma {:induction false} ItemsInOrder(c: Config, xs: seq<Node>, ys: seq<Node>, scope: Option<Node>, block: Option<Node>)
    ensures ExpectedItems(c, xs + ys, scope, block)
            == ExpectedItems(c, xs, scope, block) + ExpectedItems(c, ys, scope, block)
  {
    if xs == [] {
      assert xs + ys == ys;
    } else {
      assert (xs + ys)[0] == xs[0];
      assert (xs + ys)[1..] == xs[1..] + ys;
      ItemsInOrder(c, xs[1..], ys, scope, block);
    }
  }

  /** Descent order: the statements of a CodeBlock, in order. */
  lemma {:induction false} CodeInOrder(c: Config, xs: seq<Node>, ys: seq<Node>, scope: Option<Node>, block: Option<Node>)
    ensures ExpectedCode(c, xs + ys, scope, block)
            == ExpectedCode(c, xs, scope, block) + ExpectedCode(c, ys, scope, block)
  {
    if xs == [] {
      assert xs + ys == ys;
    } else {
      assert (xs + ys)[0] == xs[0];
      assert (xs + ys)[1..] == xs[1..] + ys;
      CodeInOrder(c, xs[1..], ys, scope, block);
    }
  }

  /** The redefinition analyser's `visit`: a node whose names cannot be read
      fails untouched; otherwise `super().visit` runs on the state in which
      every bound name was advanced once per occurrence, in order, and its
      outcome is the analyser's. */
  lemma AnalyserDelegates(c: Config, n: Node, s: State)
    requires c.collect.Some?
    ensures BoundNames(c.collect.value, n).Err? ==> Visit(c, n, s) == (Err(BoundNames(c.collect.value, n).error), s)
    ensures BoundNames(c.collect.value, n).Ok? ==>
              var names := BoundNames(c.collect.value, n).value;
              Visit(c, n, s) == BaseVisit(c, n, Rebind(s, names)) &&
              (forall x :: Generation(Rebind(s, names).table, x) == Generation(s.table, x) + multiset(names)[x]) &&
              Rebind(s, names).trace == s.trace + NameEvents(names, s.scope) &&
              ReboundNames(NameEvents(names, s.scope)) == names
  {
    if BoundNames(c.collect.value, n).Ok? {
      var names := BoundNames(c.collect.value, n).value;
      forall x
        ensures Generation(Rebind(s, names).table, x) == Generation(s.table, x) + multiset(names)[x]
      {
        AdvanceCounts(s.table, names, x);
      }
      ReboundNamesOfNameEvents(names, s.scope);
    }
  }

  /** Every `next_def` call of the analyser is recorded before the node's
      handler runs; the handler is called on the advanced state, and its
      exception or value is what the analyser's `visit` yields. */
  lemma AnalyserRebindsFirst(c: Config, n: Node, s: State)
    requires c.collect.Some? && BoundNames(c.collect.value, n).Ok?
    ensures var names := BoundNames(c.collect.value, n).value;
            s.trace + NameEvents(names, s.scope) <= Visit(c, n, s).1.trace
    ensures Resolve(c, KindOf(n)).Ok? ==>
              var names := BoundNames(c.collect.value, n).value;
              var handler := Resolve(c, KindOf(n)).value;
              s.trace + NameEvents(names, s.scope) + [Visited(n, s.scope, s.block)] <= Visit(c, n, s).1.trace &&
              (handler(n, Rebind(s, names)).Raised? ==>
                 Visit(c, n, s).0 == Err(HandlerRaised(handler(n, Rebind(s, names)).message))) &&
              (Visit(c, n, s).0.Ok? ==> Visit(c, n, s).0.value == handler(n, Rebind(s, names)).value)
  {
    var names := BoundNames(c.collect.value, n).value;
    var s1 := Rebind(s, names);
    assert Visit(c, n, s) == BaseVisit(c, n, s1);
    BaseVisitTable(c, n, s1);
    HandlerRunsFirst(c, n, s1);
  }

  /** A node that binds nothing (neither a Scope, a `for`, an augmented
      assignment, a named expression, an assignment nor an import) reaches
      the base `visit` with the table and the trace untouched. */
  lemma NonBindingDelegates(c: Config, n: Node, s: State)
    requires c.collect.Some?
    requires !n.Scope? && !IsTargetBinder(n) && !(n.Ast? && n.kind == "Assign") && !IsImport(n)
    ensures Visit(c, n, s) == BaseVisit(c, n, s)
  {
    assert s.trace + NameEvents([], s.scope) == s.trace;
    assert Rebind(s, []) == s;
  }

  /** A Scope advances exactly its own name, once. */
  lemma ScopeRebindsOwnName(c: Config, n: Node, s: State)
    requires c.collect.Some? && n.Scope?
    ensures Generation(Rebind(s, [n.name]).table, n.name) == Generation(s.table, n.name) + 1
    ensures forall y :: y != n.name ==> Generation(Rebind(s, [n.name]).table, y) == Generation(s.table, y)
    ensures Visit(c, n, s) == BaseVisit(c, n, Rebind(s, [n.name]))
  {
    assert [n.name][..0] == [];
    assert Advance(s.table, [n.name]) == WithNextDef(s.table, n.name);
  }
}

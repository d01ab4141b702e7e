/** The chain executor as the program runs it: context objects whose index is updated in place. */
module ChainContext {
  import opened Chain

  class ChainHTTPContext<W> {
    const middlewares: seq<Middleware<W>>
    var index: nat
    const parent: ChainHTTPContext?<W>  // null stands for the framework's own context
    ghost const Repr: set<object>

    ghost predicate Valid()
      reads this, Repr
      decreases Repr
      ensures Valid() ==> this in Repr
    {
      && this in Repr
      && index <= |middlewares|
      && (parent != null ==> parent in Repr && parent.Repr <= Repr - {this} && parent.Valid())
    }

    ghost function View(): (c: Context<W>)
      requires Valid()
      reads this, Repr
      decreases Repr
      ensures Chain.Valid(c)
    {
      Link(middlewares, index, if parent == null then Base else parent.View())
    }

    constructor (ms: seq<Middleware<W>>, outer: ChainHTTPContext?<W>)
      requires outer != null ==> outer.Valid()
      ensures Valid() && fresh(Repr - (if outer == null then {} else outer.Repr))
      ensures parent == outer
      ensures View() == Link(ms, 0, ViewOf(outer))
    {
      middlewares := ms;
      index := 0;
      parent := outer;
      Repr := {this} + (if outer == null then {} else outer.Repr);
    }

    method Next(w: W, base: Handler<W>) returns (e: Effect<W>)
      requires Valid()
      modifies Repr
      ensures Valid()
      ensures e == Observed(Chain.Next(old(View()), w, base))
      ensures View() == Chain.Next(old(View()), w, base).ctx
      decreases Pending(View()), 1, Depth(View())
    {
      if index < |middlewares| {
        var middleware := middlewares[index];
        index := index + 1;
        assert Pending(View()) + Size(middleware) == old(Pending(View()));
        e := Dispatch(middleware, this, w, base);
      } else if parent == null {
        e := base(w);
      } else {
        assert middlewares[index..] == [];
        e := parent.Next(w, base);
      }
    }
  }

  ghost function ViewOf<W>(c: ChainHTTPContext?<W>): (v: Context<W>)
    requires c != null ==> c.Valid()
    reads if c == null then {} else {c} + c.Repr
    ensures Chain.Valid(v)
  {
    if c == null then Base else c.View()
  }

  method Dispatch<W>(m: Middleware<W>, c: ChainHTTPContext<W>, w: W, base: Handler<W>) returns (e: Effect<W>)
    requires c.Valid()
    modifies c.Repr
    ensures c.Valid()
    ensures e == Observed(Chain.Handle(m, old(c.View()), w, base))
    ensures c.View() == Chain.Handle(m, old(c.View()), w, base).ctx
    decreases Pending(c.View()) + Size(m), 0, 0
  {
    match m
    case Plain(id, program) =>
      e := RunCode(program, [], c, w, base);
      e := Effect(e.world, e.out, [id] + e.started);
    case Nested(ms) =>
      e := Execute(c, ms, w, base);
  }

  method RunCode<W>(p: Program<W>, past: seq<Seen<W>>, c: ChainHTTPContext<W>, w: W, base: Handler<W>)
    returns (e: Effect<W>)
    requires c.Valid()
    modifies c.Repr
    ensures c.Valid()
    ensures e == Observed(Chain.RunProgram(p, past, old(c.View()), w, base))
    ensures c.View() == Chain.RunProgram(p, past, old(c.View()), w, base).ctx
    decreases Pending(c.View()), 2, p
  {
    match p
    case Finish(code) =>
      var (w', out) := code(w, past);
      e := Effect(w', out, []);
    case Segment(head, rest) =>
      var (w', action) := head(w, past);
      if action.Stop? {
        e := Effect(w', action.out, []);
      } else {
        var n := c.Next(w', base);
        e := RunCode(rest, past + [Seen(w, n.out)], c, n.world, base);
        e := Effect(e.world, e.out, n.started + e.started);
      }
  }

  method Execute<W>(c: ChainHTTPContext?<W>, ms: seq<Middleware<W>>, w: W, base: Handler<W>)
    returns (e: Effect<W>)
    requires c != null ==> c.Valid()
    modifies if c == null then {} else c.Repr
    ensures c != null ==> c.Valid()
    ensures e == Observed(Chain.ExecuteChain(old(ViewOf(c)), ms, w, base))
    ensures ViewOf(c) == Chain.ExecuteChain(old(ViewOf(c)), ms, w, base).ctx
    decreases Pending(ViewOf(c)) + SizeAll(ms), 3, 0
  {
    if ms == [] {
      if c == null {
        e := base(w);
      } else {
        e := c.Next(w, base);
      }
    } else {
      var child := new ChainHTTPContext(ms[1..], c);
      assert child.middlewares[0..] == ms[1..];
      e := Dispatch(ms[0], child, w, base);
    }
  }
}

/**
 The middleware chain executor: a context whose shared index is advanced by every
 `Next()` call, and chains nested inside chains.

 A middleware is any finite piece of handler code over a world `W` (everything the
 handler can read or write): it runs up to its next `Next()` call or to its end, and
 remembers, for each `Next()` call it has made so far, the world it ran in before that
 call and the call's result. What a handler keeps in local variables is a function of
 these.
 */
module Chain {
  import opened GoErrors

  /** What a handler call ends in: nil, an error, or a panic. */
  datatype Outcome = Ok | Failed(error: GoError) | Panicked(value: PanicValue)

  /** What a stretch of handler code does at its end. */
  datatype Action = CallNext | Stop(out: Outcome)

  /** A `Next()` call already made: the world the stretch of code before it began in, and its result. */
  datatype Seen<!W> = Seen(world: W, out: Outcome)

  /** Handler code that makes at most `NextCalls` calls of `Next()`. */
  datatype Program<!W> =
    | Finish(code: (W, seq<Seen<W>>) -> (W, Outcome))
    | Segment(head: (W, seq<Seen<W>>) -> (W, Action), rest: Program<W>)

  datatype Middleware<!W> =
    | Plain(id: nat, program: Program<W>)
    | Nested(members: seq<Middleware<W>>)

  /** The chain contexts alive during a call, innermost first. */
  datatype Context<!W> =
    | Base
    | Link(middlewares: seq<Middleware<W>>, index: nat, parent: Context<W>)

  /** The effect of a call: contexts, world, result, and the handlers it started. */
  datatype Run<!W> = Run(ctx: Context<W>, world: W, out: Outcome, started: seq<nat>)

  /** What a caller of a handler can observe. */
  datatype Effect<!W> = Effect(world: W, out: Outcome, started: seq<nat>)

  type Handler<!W> = W -> Effect<W>

  function NextCalls<W>(p: Program<W>): nat {
    match p
    case Finish(_) => 0
    case Segment(_, rest) => 1 + NextCalls(rest)
  }

  function Size<W>(m: Middleware<W>): (n: nat)
    ensures n >= 1
    decreases m
  {
    match m
    case Plain(_, _) => 1
    case Nested(ms) => 1 + SizeAll(ms)
  }

  function SizeAll<W>(ms: seq<Middleware<W>>): nat
    decreases ms
  {
    if ms == [] then 0 else Size(ms[0]) + SizeAll(ms[1..])
  }

  ghost predicate Valid<W>(c: Context<W>) {
    c.Link? ==> c.index <= |c.middlewares| && Valid(c.parent)
  }

  function Pending<W>(c: Context<W>): nat
    requires Valid(c)
  {
    match c
    case Base => 0
    case Link(ms, i, parent) => SizeAll(ms[i..]) + Pending(parent)
  }

  function Depth<W>(c: Context<W>): nat {
    if c.Base? then 0 else 1 + Depth(c.parent)
  }

  /** `c'` is `c` after some of its indices have moved forward. */
  ghost predicate Later<W>(c: Context<W>, c': Context<W>)
    requires Valid(c)
  {
    && Valid(c')
    && Pending(c') <= Pending(c)
    && match c
       case Base => c'.Base?
       case Link(ms, i, parent) =>
         c'.Link? && c'.middlewares == ms && i <= c'.index && Later(parent, c'.parent)
  }

  // ---------------------------------------------------------------------------
  // The executor
  // ---------------------------------------------------------------------------

  function RunProgram<W>(p: Program<W>, past: seq<Seen<W>>, c: Context<W>, w: W, base: Handler<W>): (r: Run<W>)
    requires Valid(c)
    ensures Later(c, r.ctx)
    decreases Pending(c), 2, p
  {
    match p
    case Finish(code) =>
      LaterRefl(c);
      var (w', out) := code(w, past);
      Run(c, w', out, [])
    case Segment(head, rest) =>
      LaterRefl(c);
      var (w', action) := head(w, past);
      if action.Stop? then Run(c, w', action.out, []) else
        var n := Next(c, w', base);
        var r := RunProgram(rest, past + [Seen(w, n.out)], n.ctx, n.world, base);
        LaterTrans(c, n.ctx, r.ctx);
        Run(r.ctx, r.world, r.out, n.started + r.started)
  }

  function Next<W>(c: Context<W>, w: W, base: Handler<W>): (r: Run<W>)
    requires Valid(c)
    ensures Later(c, r.ctx)
    decreases Pending(c), 1, Depth(c)
  {
    match c
    case Base =>
      var e := base(w);
      Run(Base, e.world, e.out, e.started)
    case Link(ms, i, parent) =>
      if i < |ms| then
        var advanced := Link(ms, i + 1, parent);
        LaterRefl(parent);
        var r := Handle(ms[i], advanced, w, base);
        LaterTrans(c, advanced, r.ctx);
        r
      else
        var r := Next(parent, w, base);
        Run(Link(ms, i, r.ctx), r.world, r.out, r.started)
  }

  function Handle<W>(m: Middleware<W>, c: Context<W>, w: W, base: Handler<W>): (r: Run<W>)
    requires Valid(c)
    ensures Later(c, r.ctx)
    decreases Pending(c) + Size(m), 0, 0
  {
    match m
    case Plain(id, program) =>
      var r := RunProgram(program, [], c, w, base);
      Run(r.ctx, r.world, r.out, [id] + r.started)
    case Nested(ms) => ExecuteChain(c, ms, w, base)
  }

  function ExecuteChain<W>(c: Context<W>, ms: seq<Middleware<W>>, w: W, base: Handler<W>): (r: Run<W>)
    requires Valid(c)
    ensures Later(c, r.ctx)
    decreases Pending(c) + SizeAll(ms), 3, 0
  {
    if ms == [] then Next(c, w, base) else
      var child := Link(ms[1..], 0, c);
      assert child.middlewares[0..] == ms[1..];
      var r := Handle(ms[0], child, w, base);
      Run(r.ctx.parent, r.world, r.out, r.started)
  }

  lemma LaterRefl<W>(c: Context<W>)
    requires Valid(c)
    ensures Later(c, c)
  {
    if c.Link? { LaterRefl(c.parent); }
  }

  lemma LaterTrans<W>(a: Context<W>, b: Context<W>, c: Context<W>)
    requires Valid(a) && Later(a, b) && Later(b, c)
    ensures Later(a, c)
  {
    if a.Link? { LaterTrans(a.parent, b.parent, c.parent); }
  }

  // ---------------------------------------------------------------------------
  // Plain function composition, the meaning a chain should have
  // ---------------------------------------------------------------------------

  /** Handler code whose `Next()` is the function `next`. */
  function Denote<W>(p: Program<W>, past: seq<Seen<W>>, next: Handler<W>, w: W): Effect<W> {
    match p
    case Finish(code) =>
      var (w', out) := code(w, past);
      Effect(w', out, [])
    case Segment(head, rest) =>
      var (w', action) := head(w, past);
      if action.Stop? then Effect(w', action.out, []) else
        var n := next(w');
        var e := Denote(rest, past + [Seen(w, n.out)], next, n.world);
        Effect(e.world, e.out, n.started + e.started)
  }

  function Start<W>(id: nat, p: Program<W>, next: Handler<W>, w: W): Effect<W> {
    var e := Denote(p, [], next, w);
    Effect(e.world, e.out, [id] + e.started)
  }

  function Wrap<W>(m: Middleware<W>, next: Handler<W>): Handler<W>
    decreases m
  {
    match m
    case Plain(id, program) => w => Start(id, program, next, w)
    case Nested(ms) => Compose(ms, next)
  }

  /** Folds a list of middlewares right to left over a handler. */
  function Compose<W>(ms: seq<Middleware<W>>, base: Handler<W>): Handler<W>
    decreases ms
  {
    if ms == [] then base else Wrap(ms[0], Compose(ms[1..], base))
  }

  predicate OnceEach<W>(ms: seq<Middleware<W>>)
    decreases ms
  {
    ms != [] ==> Once(ms[0]) && OnceEach(ms[1..])
  }

  /** No handler in `m` can call `Next()` twice. */
  predicate Once<W>(m: Middleware<W>)
    decreases m
  {
    match m
    case Plain(_, program) => NextCalls(program) <= 1
    case Nested(ms) => OnceEach(ms)
  }

  ghost predicate OncePending<W>(c: Context<W>)
    requires Valid(c)
  {
    c.Link? ==> OnceEach(c.middlewares[c.index..]) && OncePending(c.parent)
  }

  /** What `Next()` on `c` should do. */
  function Resume<W>(c: Context<W>, base: Handler<W>): Handler<W>
    requires Valid(c)
  {
    match c
    case Base => base
    case Link(ms, i, parent) => Compose(ms[i..], Resume(parent, base))
  }

  function Observed<W>(r: Run<W>): Effect<W> {
    Effect(r.world, r.out, r.started)
  }

  /** `next` is what `Next()` on `c` does. */
  ghost predicate Does<W(!new)>(c: Context<W>, base: Handler<W>, next: Handler<W>)
    requires Valid(c)
  {
    forall w :: Observed(Next(c, w, base)) == next(w)
  }

  lemma ProgramRefines<W(!new)>(p: Program<W>, past: seq<Seen<W>>, c: Context<W>, w: W, base: Handler<W>,
                                next: Handler<W>)
    requires Valid(c) && Does(c, base, next) && NextCalls(p) <= 1
    ensures Observed(RunProgram(p, past, c, w, base)) == Denote(p, past, next, w)
  {
    if p.Segment? && p.head(w, past).1.CallNext? {
      assert Observed(Next(c, p.head(w, past).0, base)) == next(p.head(w, past).0);
    }
  }

  /** A handler, plain or nested, in any context, whatever is still pending there. */
  lemma {:induction false} HandleRefines<W(!new)>(m: Middleware<W>, c: Context<W>, w: W, base: Handler<W>,
                                                  next: Handler<W>)
    requires Valid(c) && Does(c, base, next) && Once(m)
    ensures Observed(Handle(m, c, w, base)) == Wrap(m, next)(w)
    decreases Size(m), 0, 0
  {
    match m
    case Plain(_, program) => ProgramRefines(program, [], c, w, base, next);
    case Nested(ms) => ChainRefines(c, ms, w, base, next);
  }

  lemma {:induction false} ChainRefines<W(!new)>(c: Context<W>, ms: seq<Middleware<W>>, w: W, base: Handler<W>,
                                                 next: Handler<W>)
    requires Valid(c) && Does(c, base, next) && OnceEach(ms)
    ensures Observed(ExecuteChain(c, ms, w, base)) == Compose(ms, next)(w)
    decreases SizeAll(ms), 1, 0
  {
    if ms != [] {
      var rest := ms[1..];
      assert rest[0..] == rest == rest[0..|rest|];
      ExhaustedDoes(rest, c, base, next);
      LinkRefines(rest, 0, |rest|, c, base, next);
      HandleRefines(ms[0], Link(rest, 0, c), w, base, Compose(rest, next));
    }
  }

  /**
   The split law: if each of the handlers from `i` up to `n` calls `Next()` at most
   once, `Next()` runs their composition around what `Next()` does at `n`, whatever
   handlers come from there on.
   */
  lemma {:induction false} LinkRefines<W(!new)>(ms: seq<Middleware<W>>, i: nat, n: nat, parent: Context<W>,
                                               base: Handler<W>, tail: Handler<W>)
    requires i <= n <= |ms| && Valid(parent) && OnceEach(ms[i..n]) && Does(Link(ms, n, parent), base, tail)
    ensures Does(Link(ms, i, parent), base, Compose(ms[i..n], tail))
    decreases SizeAll(ms[i..n]), 2, n - i
  {
    var part := ms[i..n];
    if i < n {
      assert part[0] == ms[i] && part[1..] == ms[i + 1..n];
      LinkRefines(ms, i + 1, n, parent, base, tail);
      var next := Compose(ms[i + 1..n], tail);
      forall w ensures Observed(Next(Link(ms, i, parent), w, base)) == Compose(part, tail)(w) {
        HandleRefines(ms[i], Link(ms, i + 1, parent), w, base, next);
      }
    }
  }

  lemma ExhaustedDoes<W(!new)>(ms: seq<Middleware<W>>, parent: Context<W>, base: Handler<W>, next: Handler<W>)
    requires Valid(parent) && Does(parent, base, next)
    ensures Does(Link(ms, |ms|, parent), base, next)
  {
    forall w ensures Observed(Next(Link(ms, |ms|, parent), w, base)) == next(w) {
      assert Observed(Next(parent, w, base)) == next(w);
    }
  }

  lemma {:induction false} NextRefines<W(!new)>(c: Context<W>, base: Handler<W>)
    requires Valid(c) && OncePending(c)
    ensures Does(c, base, Resume(c, base))
    decreases c
  {
    if c.Link? {
      var Link(ms, i, parent) := c;
      NextRefines(parent, base);
      ExhaustedDoes(ms, parent, base, Resume(parent, base));
      assert ms[i..|ms|] == ms[i..];
      LinkRefines(ms, i, |ms|, parent, base, Resume(parent, base));
    }
  }

  /** The index-driven chain is function composition, when no handler calls `Next()` twice. */
  lemma ExecuteChainIsComposition<W(!new)>(ms: seq<Middleware<W>>, w: W, base: Handler<W>)
    requires OnceEach(ms)
    ensures Observed(ExecuteChain(Base, ms, w, base)) == Compose(ms, base)(w)
  {
    NextRefines(Base, base);
    ChainRefines(Base, ms, w, base, base);
  }

  // ---------------------------------------------------------------------------
  // Only what is pending matters
  // ---------------------------------------------------------------------------

  /**
   The contexts have the same handlers pending, link by link; where `extra` says so, `c`
   has one more link, with nothing pending.
   */
  ghost predicate SamePending<W>(c: Context<W>, d: Context<W>, extra: seq<bool>)
    requires Valid(c) && Valid(d)
    decreases extra
  {
    if extra == [] then c.Base? && d.Base?
    else if extra[0] then c.Link? && c.index == |c.middlewares| && SamePending(c.parent, d, extra[1..])
    else c.Link? && d.Link? && c.middlewares[c.index..] == d.middlewares[d.index..]
         && SamePending(c.parent, d.parent, extra[1..])
  }

  ghost predicate SameRun<W>(r: Run<W>, r': Run<W>, extra: seq<bool>)
    requires Valid(r.ctx) && Valid(r'.ctx)
  {
    Observed(r) == Observed(r') && SamePending(r.ctx, r'.ctx, extra)
  }

  lemma {:induction false} SameProgram<W>(p: Program<W>, past: seq<Seen<W>>, c: Context<W>, d: Context<W>,
                                          extra: seq<bool>, w: W, base: Handler<W>)
    requires Valid(c) && Valid(d) && SamePending(c, d, extra)
    ensures SameRun(RunProgram(p, past, c, w, base), RunProgram(p, past, d, w, base), extra)
    decreases Pending(c), 2, p
  {
    if p.Segment? && p.head(w, past).1.CallNext? {
      var w' := p.head(w, past).0;
      SameNext(c, d, extra, w', base);
      var n, n' := Next(c, w', base), Next(d, w', base);
      SameProgram(p.rest, past + [Seen(w, n.out)], n.ctx, n'.ctx, extra, n.world, base);
    }
  }

  lemma {:induction false} SameNext<W>(c: Context<W>, d: Context<W>, extra: seq<bool>, w: W, base: Handler<W>)
    requires Valid(c) && Valid(d) && SamePending(c, d, extra)
    ensures SameRun(Next(c, w, base), Next(d, w, base), extra)
    decreases Pending(c), 1, Depth(c)
  {
    if extra != [] {
      if extra[0] {
        SameNext(c.parent, d, extra[1..], w, base);
      } else if c.index < |c.middlewares| {
        var c', d' := Link(c.middlewares, c.index + 1, c.parent), Link(d.middlewares, d.index + 1, d.parent);
        assert c.middlewares[c.index..][0] == d.middlewares[d.index..][0];
        assert c'.middlewares[c'.index..] == c.middlewares[c.index..][1..];
        assert d'.middlewares[d'.index..] == d.middlewares[d.index..][1..];
        SameHandle(c.middlewares[c.index], c', d', extra, w, base);
      } else {
        assert |d.middlewares[d.index..]| == 0;
        SameNext(c.parent, d.parent, extra[1..], w, base);
      }
    }
  }

  lemma {:induction false} SameHandle<W>(m: Middleware<W>, c: Context<W>, d: Context<W>, extra: seq<bool>, w: W,
                                         base: Handler<W>)
    requires Valid(c) && Valid(d) && SamePending(c, d, extra)
    ensures SameRun(Handle(m, c, w, base), Handle(m, d, w, base), extra)
    decreases Pending(c) + Size(m), 0, 0
  {
    match m
    case Plain(_, program) => SameProgram(program, [], c, d, extra, w, base);
    case Nested(ms) => SameChain(c, d, extra, ms, w, base);
  }

  /** A chain run depends on its context only through the handlers pending there. */
  lemma {:induction false} SameChain<W>(c: Context<W>, d: Context<W>, extra: seq<bool>, ms: seq<Middleware<W>>, w: W,
                                        base: Handler<W>)
    requires Valid(c) && Valid(d) && SamePending(c, d, extra)
    ensures SameRun(ExecuteChain(c, ms, w, base), ExecuteChain(d, ms, w, base), extra)
    decreases Pending(c) + SizeAll(ms), 3, 0
  {
    if ms == [] {
      SameNext(c, d, extra, w, base);
    } else {
      var child, child' := Link(ms[1..], 0, c), Link(ms[1..], 0, d);
      assert child.middlewares[0..] == ms[1..];
      assert ([false] + extra)[1..] == extra;
      SameHandle(ms[0], child, child', [false] + extra, w, base);
    }
  }

  lemma {:induction false} SameAsItself<W>(c: Context<W>) returns (extra: seq<bool>)
    requires Valid(c)
    ensures SamePending(c, c, extra)
    decreases c
  {
    extra := [];
    if c.Link? {
      extra := SameAsItself(c.parent);
      assert ([false] + extra)[1..] == extra;
      extra := [false] + extra;
    }
  }

  /** What running the list `ms` in context `c` does. */
  function ChainOn<W>(c: Context<W>, ms: seq<Middleware<W>>, base: Handler<W>): Handler<W>
    requires Valid(c)
  {
    w => Observed(ExecuteChain(c, ms, w, base))
  }

  /** `Next()` at index `n` runs the rest of the list as a chain of its own. */
  lemma RestIsChain<W(!new)>(ms: seq<Middleware<W>>, n: nat, c: Context<W>, base: Handler<W>)
    requires Valid(c) && n <= |ms|
    ensures Does(Link(ms, n, c), base, ChainOn(c, ms[n..], base))
  {
    var rest := ms[n..];
    forall w ensures Observed(Next(Link(ms, n, c), w, base)) == ChainOn(c, rest, base)(w) {
      if rest != [] {
        var extra := SameAsItself(c);
        assert ([false] + extra)[1..] == extra;
        assert rest[1..][0..] == ms[n + 1..];
        SameHandle(ms[n], Link(ms, n + 1, c), Link(rest[1..], 0, c), [false] + extra, w, base);
      }
    }
  }

  lemma OncePrefixLink<W(!new)>(c: Context<W>, a: seq<Middleware<W>>, b: seq<Middleware<W>>, base: Handler<W>)
    requires Valid(c) && OnceEach(a)
    ensures Does(Link(a + b, 0, c), base, Compose(a, ChainOn(c, b, base)))
  {
    var n := |a|;
    assert (a + b)[n..] == b && (a + b)[0..n] == a;
    RestIsChain(a + b, n, c, base);
    LinkRefines(a + b, 0, n, c, base, ChainOn(c, b, base));
  }

  lemma FirstRefines<W(!new)>(c: Context<W>, ms: seq<Middleware<W>>, w: W, base: Handler<W>, next: Handler<W>)
    requires Valid(c) && ms != [] && Once(ms[0]) && Does(Link(ms[1..], 0, c), base, next)
    ensures Observed(ExecuteChain(c, ms, w, base)) == Wrap(ms[0], next)(w)
  {
    HandleRefines(ms[0], Link(ms[1..], 0, c), w, base, next);
  }

  /**
   Handlers that call `Next()` at most once are composed around the chain of the
   handlers after them, whatever those do, in any context.
   */
  lemma OncePrefixComposes<W(!new)>(c: Context<W>, a: seq<Middleware<W>>, b: seq<Middleware<W>>, w: W, base: Handler<W>)
    requires Valid(c) && OnceEach(a)
    ensures Observed(ExecuteChain(c, a + b, w, base)) == Compose(a, ChainOn(c, b, base))(w)
  {
    if a == [] {
      assert a + b == b;
    } else {
      assert (a + b)[0] == a[0] && (a + b)[1..] == a[1..] + b;
      OncePrefixLink(c, a[1..], b, base);
      FirstRefines(c, a + b, w, base, Compose(a[1..], ChainOn(c, b, base)));
    }
  }

  // ---------------------------------------------------------------------------
  // Nesting is flattening
  // ---------------------------------------------------------------------------

  /** The plain middlewares of `ms`, in order, at every depth. */
  function Flatten<W>(ms: seq<Middleware<W>>): (flat: seq<Middleware<W>>)
    ensures forall m <- flat :: m.Plain?
    decreases ms
  {
    if ms == [] then [] else FlattenOne(ms[0]) + Flatten(ms[1..])
  }

  function FlattenOne<W>(m: Middleware<W>): (flat: seq<Middleware<W>>)
    ensures forall x <- flat :: x.Plain?
    decreases m
  {
    match m
    case Plain(_, _) => [m]
    case Nested(ms) => Flatten(ms)
  }

  lemma {:induction false} ComposeAppend<W>(a: seq<Middleware<W>>, b: seq<Middleware<W>>, base: Handler<W>)
    ensures Compose(a + b, base) == Compose(a, Compose(b, base))
    ensures OnceEach(a + b) <==> OnceEach(a) && OnceEach(b)
    decreases |a|
  {
    if a == [] {
      assert a + b == b;
    } else {
      assert (a + b)[0] == a[0] && (a + b)[1..] == a[1..] + b;
      ComposeAppend(a[1..], b, base);
    }
  }

  lemma {:induction false} ComposeFlatten<W>(ms: seq<Middleware<W>>, base: Handler<W>)
    ensures Compose(Flatten(ms), base) == Compose(ms, base)
    ensures OnceEach(Flatten(ms)) <==> OnceEach(ms)
    decreases ms
  {
    if ms != [] {
      var next := Compose(ms[1..], base);
      ComposeAppend(FlattenOne(ms[0]), Flatten(ms[1..]), base);
      ComposeFlatten(ms[1..], base);
      match ms[0]
      case Plain(_, _) => assert Compose([ms[0]], next) == Wrap(ms[0], next);
      case Nested(inner) => ComposeFlatten(inner, next);
    }
  }

  /**
   A chain of nested chains runs as the flat list of its plain middlewares, whatever
   handlers `rest` come after them.
   */
  lemma NestingIsFlattening<W(!new)>(ms: seq<Middleware<W>>, rest: seq<Middleware<W>>, w: W, base: Handler<W>)
    requires OnceEach(ms)
    ensures Observed(ExecuteChain(Base, ms + rest, w, base))
         == Observed(ExecuteChain(Base, Flatten(ms) + rest, w, base))
  {
    ComposeFlatten(ms, ChainOn(Base, rest, base));
    OncePrefixComposes(Base, ms, rest, w, base);
    OncePrefixComposes(Base, Flatten(ms), rest, w, base);
  }

  /** A built chain may be spliced into the list that contains it, empty or not. */
  lemma BuildChainSplices<W(!new)>(a: seq<Middleware<W>>, b: seq<Middleware<W>>, rest: seq<Middleware<W>>, w: W,
                                   base: Handler<W>)
    requires OnceEach(a) && OnceEach(b)
    ensures Observed(ExecuteChain(Base, a + [Nested(b)] + rest, w, base))
         == Observed(ExecuteChain(Base, a + b + rest, w, base))
  {
    var tail := ChainOn(Base, rest, base);
    ComposeAppend(a, [Nested(b)], tail);
    ComposeAppend(a, b, tail);
    OncePrefixComposes(Base, a + [Nested(b)], rest, w, base);
    OncePrefixComposes(Base, a + b, rest, w, base);
  }

  /** Two built chains, one after the other: the second may do anything. */
  lemma NestedPairComposes<W(!new)>(a: seq<Middleware<W>>, b: seq<Middleware<W>>, w: W, base: Handler<W>)
    requires OnceEach(a)
    ensures Observed(ExecuteChain(Base, [Nested(a), Nested(b)], w, base)) == Compose(a, ChainOn(Base, b, base))(w)
  {
    var nested, done := [Nested(b)], Link([Nested(b)], 1, Base);
    forall w ensures Observed(Next(Link(nested, 0, Base), w, base)) == ChainOn(Base, b, base)(w) {
      assert [true][1..] == [];
      SameChain(done, Base, [true], b, w, base);
      assert Observed(Handle(nested[0], done, w, base)) == ChainOn(Base, b, base)(w);
    }
    assert [Nested(a), Nested(b)][1..] == nested;
    FirstRefines(Base, [Nested(a), Nested(b)], w, base, ChainOn(Base, b, base));
  }

  // ---------------------------------------------------------------------------
  // Handlers that call Next() any number of times
  // ---------------------------------------------------------------------------

  function Ids<W>(ms: seq<Middleware<W>>): seq<nat>
    decreases ms
  {
    if ms == [] then [] else IdsOf(ms[0]) + Ids(ms[1..])
  }

  function IdsOf<W>(m: Middleware<W>): seq<nat>
    decreases m
  {
    match m
    case Plain(id, _) => [id]
    case Nested(ms) => Ids(ms)
  }

  ghost function PendingIds<W>(c: Context<W>): seq<nat>
    requires Valid(c)
  {
    match c
    case Base => []
    case Link(ms, i, parent) => Ids(ms[i..]) + PendingIds(parent)
  }

  /** `a` is `b` with some elements left out. */
  ghost predicate Subsequence(a: seq<nat>, b: seq<nat>) {
    a == [] || (b != [] && ((a[0] == b[0] && Subsequence(a[1..], b[1..])) || Subsequence(a, b[1..])))
  }

  ghost predicate Flat<W>(ms: seq<Middleware<W>>) {
    forall m <- ms :: m.Plain?
  }

  ghost predicate FlatContext<W>(c: Context<W>) {
    c.Link? ==> Flat(c.middlewares) && FlatContext(c.parent)
  }

  ghost predicate StartsNothing<W(!new)>(base: Handler<W>) {
    forall w :: base(w).started == []
  }

  /** The starts of a call, then what is still to start, come in order out of `before`. */
  ghost predicate InOrder<W>(r: Run<W>, before: seq<nat>, exact: bool)
    requires Valid(r.ctx)
  {
    var after := r.started + PendingIds(r.ctx);
    Subsequence(after, before) && (exact ==> after == before)
  }

  lemma {:induction false} SubsequenceSuffix(a: seq<nat>, skipped: seq<nat>, b: seq<nat>)
    requires Subsequence(a, b)
    ensures Subsequence(a, skipped + b)
    decreases |skipped|
  {
    if skipped == [] {
      assert skipped + b == b;
    } else {
      SubsequenceSuffix(a, skipped[1..], b);
      assert (skipped + b)[1..] == skipped[1..] + b;
    }
  }

  lemma {:induction false} SubsequenceTrans(a: seq<nat>, b: seq<nat>, c: seq<nat>)
    requires Subsequence(a, b) && Subsequence(b, c)
    ensures Subsequence(a, c)
    decreases |c|
  {
    if a != [] {
      if b[0] == c[0] && Subsequence(b[1..], c[1..]) {
        if a[0] == b[0] && Subsequence(a[1..], b[1..]) {
          SubsequenceTrans(a[1..], b[1..], c[1..]);
        } else {
          SubsequenceTrans(a, b[1..], c[1..]);
        }
      } else {
        SubsequenceTrans(a, b, c[1..]);
      }
    }
  }

  lemma {:induction false} SubsequencePrefixed(shared: seq<nat>, a: seq<nat>, b: seq<nat>)
    requires Subsequence(a, b)
    ensures Subsequence(shared + a, shared + b)
    decreases |shared|
  {
    if shared == [] {
      assert shared + a == a && shared + b == b;
    } else {
      SubsequencePrefixed(shared[1..], a, b);
      assert (shared + a)[1..] == shared[1..] + a && (shared + b)[1..] == shared[1..] + b;
    }
  }

  lemma SubsequenceRefl(a: seq<nat>)
    ensures Subsequence(a, a)
  {
  }

  /** Starts `first`, leaving `middle`, then `second`, leaving `last`. */
  lemma StartsCompose(first: seq<nat>, middle: seq<nat>, second: seq<nat>, last: seq<nat>, before: seq<nat>)
    requires Subsequence(first + middle, before) && Subsequence(second + last, middle)
    ensures Subsequence(first + second + last, before)
    ensures first + middle == before && second + last == middle ==> first + second + last == before
  {
    assert first + second + last == first + (second + last);
    SubsequencePrefixed(first, second + last, middle);
    SubsequenceTrans(first + (second + last), first + middle, before);
  }

  lemma {:induction false} ProgramInOrder<W(!new)>(p: Program<W>, past: seq<Seen<W>>, c: Context<W>, w: W,
                                                   base: Handler<W>)
    requires Valid(c) && StartsNothing(base)
    ensures InOrder(RunProgram(p, past, c, w, base), PendingIds(c), FlatContext(c))
    decreases Pending(c), 2, p
  {
    if p.Segment? && p.head(w, past).1.CallNext? {
      var w' := p.head(w, past).0;
      var n := Next(c, w', base);
      var r := RunProgram(p.rest, past + [Seen(w, n.out)], n.ctx, n.world, base);
      NextInOrder(c, w', base);
      FlatLater(c, n.ctx);
      ProgramInOrder(p.rest, past + [Seen(w, n.out)], n.ctx, n.world, base);
      StartsCompose(n.started, PendingIds(n.ctx), r.started, PendingIds(r.ctx), PendingIds(c));
    } else {
      SubsequenceRefl(PendingIds(c));
      assert [] + PendingIds(c) == PendingIds(c);
    }
  }

  lemma PendingStep<W>(ms: seq<Middleware<W>>, i: nat, parent: Context<W>)
    requires Valid(parent) && i <= |ms|
    ensures PendingIds(Link(ms, i, parent)) ==
              if i < |ms| then IdsOf(ms[i]) + PendingIds(Link(ms, i + 1, parent)) else PendingIds(parent)
  {
    if i < |ms| {
      assert ms[i..][0] == ms[i] && ms[i..][1..] == ms[i + 1..];
      Reassociate(IdsOf(ms[i]), Ids(ms[i + 1..]), PendingIds(parent));
    } else {
      assert Ids(ms[i..]) + PendingIds(parent) == PendingIds(parent);
    }
  }

  lemma {:induction false} NextInOrder<W(!new)>(c: Context<W>, w: W, base: Handler<W>)
    requires Valid(c) && StartsNothing(base)
    ensures InOrder(Next(c, w, base), PendingIds(c), FlatContext(c))
    decreases Pending(c), 1, Depth(c)
  {
    if c.Link? {
      var Link(ms, i, parent) := c;
      PendingStep(ms, i, parent);
      if i < |ms| {
        HandleInOrder(ms[i], Link(ms, i + 1, parent), w, base);
      } else {
        NextInOrder(parent, w, base);
        PendingStep(ms, i, Next(parent, w, base).ctx);
      }
    }
  }

  lemma {:induction false} HandleInOrder<W(!new)>(m: Middleware<W>, c: Context<W>, w: W, base: Handler<W>)
    requires Valid(c) && StartsNothing(base)
    ensures InOrder(Handle(m, c, w, base), IdsOf(m) + PendingIds(c), m.Plain? && FlatContext(c))
    decreases Pending(c) + Size(m), 0, 0
  {
    match m
    case Plain(id, program) =>
      ProgramInOrder(program, [], c, w, base);
      var r := RunProgram(program, [], c, w, base);
      SubsequenceRefl([id] + PendingIds(c));
      StartsCompose([id], PendingIds(c), r.started, PendingIds(r.ctx), [id] + PendingIds(c));
    case Nested(ms) =>
      ChainInOrder(c, ms, w, base);
  }

  lemma SubsequenceWithout(first: seq<nat>, dropped: seq<nat>, last: seq<nat>, whole: seq<nat>)
    requires Subsequence(first + dropped + last, whole)
    ensures Subsequence(first + last, whole)
  {
    SubsequenceRefl(last);
    SubsequenceSuffix(last, dropped, last);
    SubsequencePrefixed(first, last, dropped + last);
    assert first + (dropped + last) == first + dropped + last;
    SubsequenceTrans(first + last, first + dropped + last, whole);
  }

  lemma {:induction false} ChainInOrder<W(!new)>(c: Context<W>, ms: seq<Middleware<W>>, w: W, base: Handler<W>)
    requires Valid(c) && StartsNothing(base)
    ensures InOrder(ExecuteChain(c, ms, w, base), Ids(ms) + PendingIds(c), false)
    decreases Pending(c) + SizeAll(ms), 3, 0
  {
    if ms == [] {
      NextInOrder(c, w, base);
      assert Ids(ms) + PendingIds(c) == PendingIds(c);
    } else {
      var child := Link(ms[1..], 0, c);
      PendingOfChild(ms, c);
      HandleInOrder(ms[0], child, w, base);
      var h := Handle(ms[0], child, w, base);
      LeaveChild(h.started, h.ctx, Ids(ms) + PendingIds(c));
    }
  }

  lemma Reassociate(a: seq<nat>, b: seq<nat>, c: seq<nat>)
    ensures (a + b) + c == a + (b + c)
  {
  }

  lemma PendingOfList<W>(rest: seq<Middleware<W>>, c: Context<W>)
    requires Valid(c)
    ensures PendingIds(Link(rest, 0, c)) == Ids(rest) + PendingIds(c)
  {
    assert rest[0..] == rest;
  }

  lemma PendingOfChild<W>(ms: seq<Middleware<W>>, c: Context<W>)
    requires Valid(c) && ms != []
    ensures IdsOf(ms[0]) + PendingIds(Link(ms[1..], 0, c)) == Ids(ms) + PendingIds(c)
  {
    PendingOfList(ms[1..], c);
    Reassociate(IdsOf(ms[0]), Ids(ms[1..]), PendingIds(c));
  }

  /** When a chain returns, the members its context has left are dropped. */
  lemma LeaveChild<W>(started: seq<nat>, child: Context<W>, before: seq<nat>)
    requires Valid(child) && child.Link? && Subsequence(started + PendingIds(child), before)
    ensures Subsequence(started + PendingIds(child.parent), before)
  {
    var dropped, last := Ids(child.middlewares[child.index..]), PendingIds(child.parent);
    assert started + PendingIds(child) == started + dropped + last;
    SubsequenceWithout(started, dropped, last, before);
  }

  /** In a flat chain nothing is skipped: what was pending is started, dropped at the end, or still pending. */
  lemma FlatChainInOrder<W(!new)>(c: Context<W>, ms: seq<Middleware<W>>, w: W, base: Handler<W>)
    returns (dropped: seq<nat>)
    requires Valid(c) && StartsNothing(base) && Flat(ms) && FlatContext(c)
    ensures var r := ExecuteChain(c, ms, w, base);
            r.started + dropped + PendingIds(r.ctx) == Ids(ms) + PendingIds(c)
  {
    if ms == [] {
      dropped := [];
      NextInOrder(c, w, base);
      var r := Next(c, w, base);
      assert r.started + [] == r.started && Ids(ms) + PendingIds(c) == PendingIds(c);
    } else {
      PendingOfChild(ms, c);
      HandleInOrder(ms[0], Link(ms[1..], 0, c), w, base);
      var h := Handle(ms[0], Link(ms[1..], 0, c), w, base);
      dropped := Ids(h.ctx.middlewares[h.ctx.index..]);
      assert h.started + PendingIds(h.ctx) == h.started + dropped + PendingIds(h.ctx.parent);
    }
  }

  lemma FlatLater<W>(c: Context<W>, c': Context<W>)
    requires Valid(c) && Later(c, c')
    ensures FlatContext(c) ==> FlatContext(c')
  {
  }

  /**
   Whatever the handlers do, and however often they call `Next()`, one run of a chain
   starts handlers in list order and each at most once; in a flat chain the handlers
   started are a prefix of the list.
   */
  lemma StartsInOrderAtMostOnce<W(!new)>(ms: seq<Middleware<W>>, w: W, base: Handler<W>)
    requires StartsNothing(base)
    ensures Subsequence(ExecuteChain(Base, ms, w, base).started, Ids(ms))
    ensures Flat(ms) ==> ExecuteChain(Base, ms, w, base).started <= Ids(ms)
  {
    ChainInOrder(Base, ms, w, base);
    var r := ExecuteChain(Base, ms, w, base);
    assert r.started + PendingIds(r.ctx) == r.started && Ids(ms) + PendingIds<W>(Base) == Ids(ms);
    if Flat(ms) {
      var dropped := FlatChainInOrder(Base, ms, w, base);
      assert r.started + dropped == Ids(ms);
    }
  }

  // ---------------------------------------------------------------------------
  // Exactly when a chain is composition
  // ---------------------------------------------------------------------------

  ghost predicate Distinct(ids: seq<nat>) {
    forall i, j :: 0 <= i < j < |ids| ==> ids[i] != ids[j]
  }

  lemma DistinctParts(a: seq<nat>, b: seq<nat>)
    requires Distinct(a + b)
    ensures Distinct(a) && Distinct(b)
    ensures forall x <- a :: x !in b
  {
    assert forall i :: 0 <= i < |a| ==> a[i] == (a + b)[i];
    assert forall i :: 0 <= i < |b| ==> b[i] == (a + b)[|a| + i];
  }

  /** The members pending in `c`, from all its links. */
  function PendingMembers<W>(c: Context<W>): seq<Middleware<W>>
    requires Valid(c)
  {
    if c.Base? then [] else c.middlewares[c.index..] + PendingMembers(c.parent)
  }

  lemma {:induction false} IdsAppend<W>(a: seq<Middleware<W>>, b: seq<Middleware<W>>)
    ensures Ids(a + b) == Ids(a) + Ids(b)
    decreases |a|
  {
    if a == [] {
      assert a + b == b;
    } else {
      assert (a + b)[0] == a[0] && (a + b)[1..] == a[1..] + b;
      IdsAppend(a[1..], b);
    }
  }

  lemma {:induction false} PendingIsComposed<W>(c: Context<W>, base: Handler<W>)
    requires Valid(c)
    ensures PendingIds(c) == Ids(PendingMembers(c)) && Resume(c, base) == Compose(PendingMembers(c), base)
    decreases c
  {
    if c.Link? {
      PendingIsComposed(c.parent, base);
      IdsAppend(c.middlewares[c.index..], PendingMembers(c.parent));
      ComposeAppend(c.middlewares[c.index..], PendingMembers(c.parent), base);
    }
  }

  /** Composition starts the first plain handler of the list, and adds nothing if there is none. */
  lemma {:induction false} ComposedStart<W>(ms: seq<Middleware<W>>, next: Handler<W>, w: W)
    ensures if Ids(ms) == [] then Compose(ms, next) == next
            else Compose(ms, next)(w).started != [] && Compose(ms, next)(w).started[0] == Ids(ms)[0]
    decreases ms
  {
    if ms != [] {
      ComposedStart(ms[1..], next, w);
      match ms[0]
      case Plain(id, _) => assert IdsOf(ms[0]) == [id] && Ids(ms) == [id] + Ids(ms[1..]);
      case Nested(inner) => ComposedStart(inner, Compose(ms[1..], next), w);
    }
  }

  lemma ResumedStart<W>(c: Context<W>, base: Handler<W>, w: W)
    requires Valid(c)
    ensures if PendingIds(c) == [] then Resume(c, base) == base
            else Resume(c, base)(w).started != [] && Resume(c, base)(w).started[0] == PendingIds(c)[0]
  {
    PendingIsComposed(c, base);
    ComposedStart(PendingMembers(c), base, w);
  }

  /** The rest of a program either calls `next`, which starts `first`, or does not depend on it. */
  lemma CallsOrNot<W>(p: Program<W>, past: seq<Seen<W>>, c: Context<W>, w: W, base: Handler<W>, next: Handler<W>,
                      first: nat)
    requires Valid(c)
    requires p.Segment? ==> var e := next(p.head(w, past).0); e.started != [] && e.started[0] == first
    ensures var e := Denote(p, past, next, w);
            first in e.started || Observed(RunProgram(p, past, c, w, base)) == e
  {
  }

  lemma {:induction false} ProgramOnce<W(!new)>(p: Program<W>, past: seq<Seen<W>>, c: Context<W>, w: W,
                                                base: Handler<W>)
    requires Valid(c) && StartsNothing(base) && Distinct(Denote(p, past, Resume(c, base), w).started)
    ensures Observed(RunProgram(p, past, c, w, base)) == Denote(p, past, Resume(c, base), w)
    decreases Pending(c), 2, p
  {
    if p.Segment? && p.head(w, past).1.CallNext? {
      var w', next := p.head(w, past).0, Resume(c, base);
      var n, d := Next(c, w', base), next(w');
      var past' := past + [Seen(w, d.out)];
      var e := Denote(p.rest, past', next, d.world);
      DistinctParts(d.started, e.started);
      NextOnce(c, w', base);
      ResumedStart(c, base, w');
      if PendingIds(c) == [] {
        NextInOrder(c, w', base);
        ResumedStart(n.ctx, base, w');
        ProgramOnce(p.rest, past', n.ctx, d.world, base);
      } else {
        if p.rest.Segment? {
          ResumedStart(c, base, p.rest.head(d.world, past').0);
        }
        CallsOrNot(p.rest, past', n.ctx, d.world, base, next, PendingIds(c)[0]);
      }
    }
  }

  lemma {:induction false} NextOnce<W(!new)>(c: Context<W>, w: W, base: Handler<W>)
    requires Valid(c) && StartsNothing(base) && Distinct(Resume(c, base)(w).started)
    ensures Observed(Next(c, w, base)) == Resume(c, base)(w)
    decreases Pending(c), 1, Depth(c)
  {
    if c.Link? {
      var Link(ms, i, parent) := c;
      if i < |ms| {
        assert ms[i..][0] == ms[i] && ms[i..][1..] == ms[i + 1..];
        HandleOnce(ms[i], Link(ms, i + 1, parent), w, base);
      } else {
        NextOnce(parent, w, base);
      }
    }
  }

  lemma {:induction false} HandleOnce<W(!new)>(m: Middleware<W>, c: Context<W>, w: W, base: Handler<W>)
    requires Valid(c) && StartsNothing(base) && Distinct(Wrap(m, Resume(c, base))(w).started)
    ensures Observed(Handle(m, c, w, base)) == Wrap(m, Resume(c, base))(w)
    decreases Pending(c) + Size(m), 0, 0
  {
    match m
    case Plain(id, program) =>
      DistinctParts([id], Denote(program, [], Resume(c, base), w).started);
      ProgramOnce(program, [], c, w, base);
    case Nested(ms) =>
      ChainOnce(c, ms, w, base);
  }

  /** Where composition starts no handler twice, the chain run is composition: for any list and context. */
  lemma {:induction false} ChainOnce<W(!new)>(c: Context<W>, ms: seq<Middleware<W>>, w: W, base: Handler<W>)
    requires Valid(c) && StartsNothing(base) && Distinct(Compose(ms, Resume(c, base))(w).started)
    ensures Observed(ExecuteChain(c, ms, w, base)) == Compose(ms, Resume(c, base))(w)
    decreases Pending(c) + SizeAll(ms), 3, 0
  {
    if ms == [] {
      NextOnce(c, w, base);
    } else {
      var child := Link(ms[1..], 0, c);
      assert child.middlewares[0..] == ms[1..];
      HandleOnce(ms[0], child, w, base);
    }
  }

  lemma {:induction false} SubsequenceDistinct(a: seq<nat>, b: seq<nat>)
    requires Subsequence(a, b) && Distinct(b)
    ensures Distinct(a) && forall x <- a :: x in b
    decreases |b|
  {
    if a != [] {
      assert b == [b[0]] + b[1..];
      DistinctParts([b[0]], b[1..]);
      if a[0] == b[0] && Subsequence(a[1..], b[1..]) {
        SubsequenceDistinct(a[1..], b[1..]);
        assert a[0] !in a[1..];
      } else {
        SubsequenceDistinct(a, b[1..]);
      }
    }
  }

  lemma {:induction false} FlattenAppend<W>(a: seq<Middleware<W>>, b: seq<Middleware<W>>)
    ensures Flatten(a + b) == Flatten(a) + Flatten(b)
    decreases |a|
  {
    if a == [] {
      assert a + b == b;
    } else {
      assert (a + b)[0] == a[0] && (a + b)[1..] == a[1..] + b;
      FlattenAppend(a[1..], b);
    }
  }

  lemma {:induction false} FlattenIds<W>(ms: seq<Middleware<W>>)
    ensures Ids(Flatten(ms)) == Ids(ms)
    decreases ms
  {
    if ms != [] {
      IdsAppend(FlattenOne(ms[0]), Flatten(ms[1..]));
      FlattenIds(ms[1..]);
      match ms[0]
      case Plain(_, _) => assert [ms[0]][1..] == [];
      case Nested(inner) => FlattenIds(inner);
    }
  }

  /** Composition that starts no handler twice starts the first ones of the list. */
  lemma ComposedStartsPrefix<W(!new)>(ms: seq<Middleware<W>>, w: W, base: Handler<W>)
    requires StartsNothing(base) && Distinct(Compose(ms, base)(w).started)
    ensures Compose(ms, base)(w).started <= Ids(ms)
  {
    ComposeFlatten(ms, base);
    FlattenIds(ms);
    ChainOnce(Base, Flatten(ms), w, base);
    StartsInOrderAtMostOnce(Flatten(ms), w, base);
  }

  /**
   The exact law, for any list, nested or not, and in any context: with handlers told
   apart by their ids, the chain run through the shared indices is composition if and
   only if composition would start no handler twice, that is, if and only if what it
   would start is an initial part of the list.
   */
  lemma CompositionIffStartedOnce<W(!new)>(c: Context<W>, ms: seq<Middleware<W>>, w: W, base: Handler<W>)
    requires Valid(c) && StartsNothing(base) && Distinct(Ids(ms) + PendingIds(c))
    ensures var composed := Compose(ms, Resume(c, base))(w);
            && (Observed(ExecuteChain(c, ms, w, base)) == composed <==> Distinct(composed.started))
            && (Distinct(composed.started) <==> composed.started <= Ids(ms) + PendingIds(c))
  {
    var composed, ids := Compose(ms, Resume(c, base))(w), Ids(ms) + PendingIds(c);
    ChainInOrder(c, ms, w, base);
    var r := ExecuteChain(c, ms, w, base);
    SubsequenceDistinct(r.started + PendingIds(r.ctx), ids);
    DistinctParts(r.started, PendingIds(r.ctx));
    PendingIsComposed(c, base);
    ComposeAppend(ms, PendingMembers(c), base);
    IdsAppend(ms, PendingMembers(c));
    if Distinct(composed.started) {
      ChainOnce(c, ms, w, base);
      ComposedStartsPrefix(ms + PendingMembers(c), w, base);
    }
  }

  /** On such runs nesting is flattening, however often the handlers may call `Next()` on others. */
  lemma StartedOnceFlattens<W(!new)>(ms: seq<Middleware<W>>, w: W, base: Handler<W>)
    requires StartsNothing(base) && Distinct(Compose(ms, base)(w).started)
    ensures Observed(ExecuteChain(Base, ms, w, base)) == Observed(ExecuteChain(Base, Flatten(ms), w, base))
  {
    ComposeFlatten(ms, base);
    ChainOnce(Base, ms, w, base);
    ChainOnce(Base, Flatten(ms), w, base);
  }

  // ---------------------------------------------------------------------------
  // A handler that calls Next() twice
  // ---------------------------------------------------------------------------

  /** Leaves a mark, calls `Next()` `calls` times, and returns nil; the world is the marks left. */
  function Marking(mark: nat, calls: nat): Program<seq<nat>> {
    Segment((w: seq<nat>, _) => (w + [mark], CallNext), Repeating(calls))
  }

  function Repeating(calls: nat): Program<seq<nat>> {
    if calls <= 1 then Finish((w: seq<nat>, _) => (w, Ok))
    else Segment((w: seq<nat>, _) => (w, CallNext), Repeating(calls - 1))
  }

  function LeaveMark(mark: nat): Program<seq<nat>> {
    Finish((w: seq<nat>, _) => (w + [mark], Ok))
  }

  function MarkingBase(): Handler<seq<nat>> {
    w => Effect(w + [0], Ok, [])
  }

  lemma TwoNextCalls(mark: nat, c: Context<seq<nat>>, w: seq<nat>, base: Handler<seq<nat>>, next: Handler<seq<nat>>)
    requires Valid(c)
    ensures var n := Next(c, w + [mark], base);
            Handle(Plain(mark, Marking(mark, 2)), c, w, base).world == Next(n.ctx, n.world, base).world
    ensures Denote(Marking(mark, 2), [], next, w).world == next(next(w + [mark]).world).world
  {
    var m := Marking(mark, 2);
    assert m.head(w, []) == (w + [mark], CallNext);
    assert m.rest == Repeating(2) && m.rest.rest == Repeating(1);
    var n, d := Next(c, w + [mark], base), next(w + [mark]);
    var past, past' := [Seen(w, n.out)], [Seen(w, d.out)];
    assert [] + past == past && [] + past' == past';
    assert m.rest.head(n.world, past) == (n.world, CallNext) && m.rest.head(d.world, past') == (d.world, CallNext);
    var n2 := Next(n.ctx, n.world, base);
    assert RunProgram(m.rest.rest, past + [Seen(n.world, n2.out)], n2.ctx, n2.world, base).world == n2.world;
    assert RunProgram(m.rest, past, n.ctx, n.world, base).world == n2.world;
    assert Handle(Plain(mark, m), c, w, base).world == RunProgram(m, [], c, w, base).world;
  }

  lemma NextLeavesMark(ms: seq<Middleware<seq<nat>>>, i: nat, parent: Context<seq<nat>>, w: seq<nat>, mark: nat)
    requires Valid(parent) && i < |ms| && ms[i] == Plain(mark, LeaveMark(mark))
    ensures Next(Link(ms, i, parent), w, MarkingBase()).world == w + [mark]
    ensures Next(Link(ms, i, parent), w, MarkingBase()).ctx == Link(ms, i + 1, parent)
  {
    var c := Link(ms, i + 1, parent);
    var r := RunProgram(LeaveMark(mark), [], c, w, MarkingBase());
    assert r.world == w + [mark] && r.ctx == c;
    assert Handle(ms[i], c, w, MarkingBase()) == Run(c, r.world, r.out, [mark] + r.started);
  }

  lemma ExhaustedReachesBase(ms: seq<Middleware<seq<nat>>>, w: seq<nat>)
    ensures Next(Link(ms, |ms|, Base), w, MarkingBase()).world == w + [0]
  {
    assert Next(Base, w, MarkingBase()).world == w + [0];
  }

  /**
   The at-most-once condition cannot be dropped: a second `Next()` moves on to the
   base handler where composition would run the rest of the list again, and loses
   the rest of a nested chain that the flat list would still run.
   */
  lemma SecondNextCallSkipsAhead(a: Middleware<seq<nat>>, b: Middleware<seq<nat>>, c: Middleware<seq<nat>>)
    requires a == Plain(1, Marking(1, 2)) && b == Plain(2, LeaveMark(2)) && c == Plain(3, LeaveMark(3))
    ensures ExecuteChain(Base, [a, b], [], MarkingBase()).world == [1, 2, 0]
    ensures Compose([a, b], MarkingBase())([]).world == [1, 2, 2]
    ensures ExecuteChain(Base, [a, Nested([b, c])], [], MarkingBase()).world == [1, 2, 0]
    ensures ExecuteChain(Base, [a, b, c], [], MarkingBase()).world == [1, 2, 3]
  {
    var base := MarkingBase();
    var next := Compose([b], base);
    assert [] + [1] == [1] && [1] + [2] == [1, 2] && [1, 2] + [0] == [1, 2, 0] && [1, 2] + [3] == [1, 2, 3];
    ExhaustedReachesBase([b], [1, 2]);
    TwoNextCalls(1, Link([b], 0, Base), [], base, next);
    NextLeavesMark([b], 0, Base, [1], 2);
    assert [a, b][1..] == [b];
    assert [b][1..] == [];
    assert next == Wrap(b, Compose([], base));
    assert next([1]).world == [1, 2] && next([1, 2]).world == [1, 2, 2];

    var nested := Nested([b, c]);
    ExhaustedReachesBase([nested], [1, 2]);
    TwoNextCalls(1, Link([nested], 0, Base), [], base, next);
    assert [a, nested][1..] == [nested];
    assert [b, c][1..] == [c];
    var outer := Link([nested], 1, Base);
    assert Handle(b, Link([c], 0, outer), [1], base).world == [1, 2];
    assert ExecuteChain(outer, [b, c], [1], base).world == [1, 2];
    assert ExecuteChain(outer, [b, c], [1], base).ctx == outer;
    assert Handle(nested, outer, [1], base) == ExecuteChain(outer, [b, c], [1], base);

    TwoNextCalls(1, Link([b, c], 0, Base), [], base, next);
    NextLeavesMark([b, c], 0, Base, [1], 2);
    NextLeavesMark([b, c], 1, Base, [1, 2], 3);
    assert [a, b, c][1..] == [b, c];
  }
}

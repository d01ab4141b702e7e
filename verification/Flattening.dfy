/**
 Exactly when a chain with built chains inside runs as the flat list of its handlers.
 A built chain that returns drops the members its context has not reached. The flat
 list would still run them, so the two part at the next `Next()` call, if there is one.
 */
module Flattening {
  import opened Chain

  /** What has happened to the handlers a chain run has to start. */
  datatype Loss =
    | Intact  // every chain that has returned had nothing left
    | Lost    // one had handlers left, and `Next()` has not been called since
    | Skipped // one had, and `Next()` has been called since

  // ---------------------------------------------------------------------------
  // The loss of a run, along the executor
  // ---------------------------------------------------------------------------

  function ProgramLoss<W>(p: Program<W>, past: seq<Seen<W>>, c: Context<W>, w: W, base: Handler<W>, loss: Loss): Loss
    requires Valid(c)
    decreases Pending(c), 2, p
  {
    match p
    case Finish(_) => loss
    case Segment(head, rest) =>
      var (w', action) := head(w, past);
      if action.Stop? then loss else
        var n := Next(c, w', base);
        ProgramLoss(rest, past + [Seen(w, n.out)], n.ctx, n.world, base, NextLoss(c, w', base, loss))
  }

  function NextLoss<W>(c: Context<W>, w: W, base: Handler<W>, loss: Loss): Loss
    requires Valid(c)
    decreases Pending(c), 1, Depth(c)
  {
    if loss != Intact then Skipped else
      match c
      case Base => Intact
      case Link(ms, i, parent) =>
        if i < |ms| then HandleLoss(ms[i], Link(ms, i + 1, parent), w, base) else NextLoss(parent, w, base, Intact)
  }

  function HandleLoss<W>(m: Middleware<W>, c: Context<W>, w: W, base: Handler<W>): Loss
    requires Valid(c)
    decreases Pending(c) + Size(m), 0, 0
  {
    match m
    case Plain(_, program) => ProgramLoss(program, [], c, w, base, Intact)
    case Nested(ms) => ChainLoss(c, ms, w, base)
  }

  function ChainLoss<W>(c: Context<W>, ms: seq<Middleware<W>>, w: W, base: Handler<W>): Loss
    requires Valid(c)
    decreases Pending(c) + SizeAll(ms), 3, 0
  {
    if ms == [] then NextLoss(c, w, base, Intact) else
      var child := Link(ms[1..], 0, c);
      assert child.middlewares[0..] == ms[1..];
      var h := Handle(ms[0], child, w, base);
      var loss := HandleLoss(ms[0], child, w, base);
      if loss.Intact? && Ids(h.ctx.middlewares[h.ctx.index..]) != [] then Lost else loss
  }

  // ---------------------------------------------------------------------------
  // A nested run against a run over one flat link
  // ---------------------------------------------------------------------------

  /** The flat list from `j` on is what is pending in `c`. */
  ghost predicate Covers<W>(flat: seq<Middleware<W>>, j: nat, c: Context<W>)
    requires Valid(c)
  {
    j <= |flat| && Flatten(PendingMembers(c)) == flat[j..]
  }

  /** The flat list has a handler to start next that `c` will never start. */
  ghost predicate Behind<W>(flat: seq<Middleware<W>>, j: nat, c: Context<W>)
    requires Valid(c) && Flat(flat)
  {
    j < |flat| && flat[j].id !in PendingIds(c)
  }

  ghost predicate Alike<W>(flat: seq<Middleware<W>>, loss: Loss, j: nat, c: Context<W>)
    requires Valid(c) && Flat(flat)
  {
    match loss
    case Intact => Covers(flat, j, c)
    case Lost => Behind(flat, j, c)
    case Skipped => true
  }

  /** Only the flat run has started `x`, and the nested one never will. */
  ghost predicate Parted<W>(r: Run<W>, r': Run<W>, x: nat)
    requires Valid(r.ctx)
  {
    x in r'.started && x !in r.started && x !in PendingIds(r.ctx)
  }

  /** A nested run `r` with this loss, and the flat run `r'`. */
  ghost predicate Tracks<W>(flat: seq<Middleware<W>>, loss: Loss, r: Run<W>, r': Run<W>)
    requires Valid(r.ctx) && Flat(flat)
  {
    && r'.ctx.Link? && r'.ctx == Link(flat, r'.ctx.index, Base) && r'.ctx.index <= |flat|
    && Alike(flat, loss, r'.ctx.index, r.ctx)
    && if loss.Skipped? then exists x :: Parted(r, r', x) else Observed(r) == Observed(r')
  }

  lemma {:induction false} SubsequenceIn(a: seq<nat>, b: seq<nat>)
    requires Subsequence(a, b)
    ensures forall x <- a :: x in b
    decreases |b|
  {
    if a != [] {
      assert a == [a[0]] + a[1..] && b == [b[0]] + b[1..];
      if a[0] == b[0] && Subsequence(a[1..], b[1..]) {
        SubsequenceIn(a[1..], b[1..]);
      } else {
        SubsequenceIn(a, b[1..]);
      }
    }
  }

  lemma {:induction false} StaysSkipped<W>(p: Program<W>, past: seq<Seen<W>>, c: Context<W>, w: W, base: Handler<W>)
    requires Valid(c)
    ensures ProgramLoss(p, past, c, w, base, Skipped) == Skipped
    decreases p
  {
    if p.Segment? && p.head(w, past).1.CallNext? {
      var n := Next(c, p.head(w, past).0, base);
      StaysSkipped(p.rest, past + [Seen(w, n.out)], n.ctx, n.world, base);
    }
  }

  lemma FlatLater<W>(flat: seq<Middleware<W>>, j: nat, c: Context<W>)
    requires j <= |flat| && Later(Link(flat, j, Base), c)
    ensures c.Link? && c == Link(flat, c.index, Base) && c.index <= |flat|
  {
    assert Later(Base, c.parent) && c.parent == Base;
  }

  /** What a call starts, and then has left, are all the ids that were pending, in a flat link. */
  lemma FlatNext<W(!new)>(flat: seq<Middleware<W>>, j: nat, w: W, base: Handler<W>)
    requires Flat(flat) && StartsNothing(base) && j <= |flat|
    ensures var r := Next(Link(flat, j, Base), w, base);
            && r.ctx.Link? && r.ctx == Link(flat, r.ctx.index, Base) && r.ctx.index <= |flat|
            && r.started + Ids(flat[r.ctx.index..]) == Ids(flat[j..])
  {
    var c := Link(flat, j, Base);
    assert FlatContext(c);
    NextInOrder(c, w, base);
    FlatLater(flat, j, Next(c, w, base).ctx);
    OneLink(flat, j);
    OneLink(flat, Next(c, w, base).ctx.index);
  }

  lemma FlatProgram<W(!new)>(flat: seq<Middleware<W>>, j: nat, p: Program<W>, past: seq<Seen<W>>, w: W,
                             base: Handler<W>)
    requires Flat(flat) && StartsNothing(base) && j <= |flat|
    ensures var r := RunProgram(p, past, Link(flat, j, Base), w, base);
            && r.ctx.Link? && r.ctx == Link(flat, r.ctx.index, Base) && r.ctx.index <= |flat|
            && r.started + Ids(flat[r.ctx.index..]) == Ids(flat[j..])
  {
    var c := Link(flat, j, Base);
    assert FlatContext(c);
    ProgramInOrder(p, past, c, w, base);
    FlatLater(flat, j, RunProgram(p, past, c, w, base).ctx);
    OneLink(flat, j);
    OneLink(flat, RunProgram(p, past, c, w, base).ctx.index);
  }

  lemma FlatStarts<W>(flat: seq<Middleware<W>>, j: nat, w: W, base: Handler<W>)
    requires Flat(flat) && j < |flat|
    ensures flat[j].id in Next(Link(flat, j, Base), w, base).started
  {
    assert flat[j].Plain?;
  }

  lemma OneLink<W>(flat: seq<Middleware<W>>, j: nat)
    requires j <= |flat|
    ensures PendingIds(Link(flat, j, Base)) == Ids(flat[j..])
  {
    assert PendingIds<W>(Base) == [] && Ids(flat[j..]) + [] == Ids(flat[j..]);
  }

  lemma DistinctFrom<W>(flat: seq<Middleware<W>>, j: nat)
    requires j <= |flat| && Distinct(Ids(flat))
    ensures Distinct(Ids(flat[j..]))
  {
    assert flat[..j] + flat[j..] == flat;
    IdsAppend(flat[..j], flat[j..]);
    DistinctParts(Ids(flat[..j]), Ids(flat[j..]));
  }

  lemma CoveredIds<W>(flat: seq<Middleware<W>>, j: nat, c: Context<W>, base: Handler<W>)
    requires Valid(c) && Covers(flat, j, c)
    ensures PendingIds(c) == Ids(flat[j..])
  {
    PendingIsComposed(c, base);
    FlattenIds(PendingMembers(c));
  }

  /** Runs that have parted stay parted: the nested one only starts what is pending. */
  lemma PartedStays<W(!new)>(n: Run<W>, n': Run<W>, r: Run<W>, r': Run<W>, whole: Run<W>, whole': Run<W>, x: nat)
    requires Valid(n.ctx) && Valid(r.ctx) && Parted(n, n', x)
         && Subsequence(r.started + PendingIds(r.ctx), PendingIds(n.ctx))
    requires whole.ctx == r.ctx && whole.started == n.started + r.started && whole'.started == n'.started + r'.started
    ensures Parted(whole, whole', x)
  {
    SubsequenceIn(r.started + PendingIds(r.ctx), PendingIds(n.ctx));
    assert forall y <- r.started :: y in r.started + PendingIds(r.ctx);
    assert forall y <- PendingIds(r.ctx) :: y in r.started + PendingIds(r.ctx);
  }

  /** A parting after a shared part is a parting of the whole. */
  lemma PartedLater<W>(flat: seq<Middleware<W>>, j: nat, j1: nat, shared: seq<nat>, r: Run<W>, r': Run<W>,
                       whole: Run<W>, whole': Run<W>, x: nat)
    requires Valid(r.ctx) && Parted(r, r', x) && Distinct(Ids(flat)) && j <= |flat| && j1 <= |flat|
    requires shared + Ids(flat[j1..]) == Ids(flat[j..]) && r'.started <= Ids(flat[j1..])
    requires whole.ctx == r.ctx && whole.started == shared + r.started && whole'.started == shared + r'.started
    ensures Parted(whole, whole', x)
  {
    DistinctFrom(flat, j);
    DistinctParts(shared, Ids(flat[j1..]));
  }

  lemma PendingMembersStep<W>(ms: seq<Middleware<W>>, i: nat, parent: Context<W>)
    requires Valid(parent) && i < |ms|
    ensures Flatten(PendingMembers(Link(ms, i, parent)))
         == FlattenOne(ms[i]) + Flatten(PendingMembers(Link(ms, i + 1, parent)))
  {
    var all := PendingMembers(Link(ms, i, parent));
    assert all[0] == ms[i] && all[1..] == PendingMembers(Link(ms, i + 1, parent));
  }

  lemma TracksDeeper<W>(flat: seq<Middleware<W>>, loss: Loss, r: Run<W>, ms: seq<Middleware<W>>, r': Run<W>)
    requires Valid(r.ctx) && Flat(flat) && Tracks(flat, loss, r, r')
    ensures Tracks(flat, loss, Run(Link(ms, |ms|, r.ctx), r.world, r.out, r.started), r')
  {
    var r1 := Run(Link(ms, |ms|, r.ctx), r.world, r.out, r.started);
    PendingStep(ms, |ms|, r.ctx);
    assert PendingMembers(r1.ctx) == PendingMembers(r.ctx);
    if loss.Skipped? {
      var x :| Parted(r, r', x);
      assert Parted(r1, r', x);
    }
  }

  lemma NothingDropped<W>(flat: seq<Middleware<W>>, j: nat, c: Context<W>)
    requires Valid(c) && c.Link? && Flat(flat) && Covers(flat, j, c) && Ids(c.middlewares[c.index..]) == []
    ensures Covers(flat, j, c.parent)
  {
    var members, rest := c.middlewares[c.index..], PendingMembers(c.parent);
    FlattenAppend(members, rest);
    FlattenIds(members);
    NoIdsNoHandlers(Flatten(members));
    assert [] + Flatten(rest) == Flatten(rest);
  }

  lemma NoIdsNoHandlers<W>(ms: seq<Middleware<W>>)
    requires Flat(ms)
    ensures ms == [] <==> Ids(ms) == []
  {
    if ms != [] {
      assert IdsOf(ms[0]) == [ms[0].id] && Ids(ms) == [ms[0].id] + Ids(ms[1..]);
    }
  }

  lemma FirstDropped<W>(flat: seq<Middleware<W>>, j: nat, c: Context<W>, base: Handler<W>)
    requires Valid(c) && c.Link? && Flat(flat) && Distinct(Ids(flat)) && Covers(flat, j, c)
         && Ids(c.middlewares[c.index..]) != []
    ensures Behind(flat, j, c.parent)
  {
    var left, rest := Ids(c.middlewares[c.index..]), PendingIds(c.parent);
    CoveredIds(flat, j, c, base);
    DistinctFrom(flat, j);
    DistinctParts(left, rest);
    FirstId(flat, j);
    assert (left + rest)[0] == left[0];
  }

  lemma FirstId<W>(flat: seq<Middleware<W>>, j: nat)
    requires Flat(flat) && j <= |flat| && Ids(flat[j..]) != []
    ensures j < |flat| && flat[j].id == Ids(flat[j..])[0]
  {
    assert IdsOf(flat[j]) == [flat[j].id] && flat[j..][0] == flat[j];
  }

  /** A chain returns to the context it was started in, and drops what its own has left. */
  lemma LeaveTracked<W>(flat: seq<Middleware<W>>, loss: Loss, h: Run<W>, r': Run<W>, base: Handler<W>)
    requires Flat(flat) && Distinct(Ids(flat)) && Valid(h.ctx) && h.ctx.Link? && Tracks(flat, loss, h, r')
    ensures Tracks(flat, if loss.Intact? && Ids(h.ctx.middlewares[h.ctx.index..]) != [] then Lost else loss,
                   Run(h.ctx.parent, h.world, h.out, h.started), r')
  {
    assert forall x <- PendingIds(h.ctx.parent) :: x in PendingIds(h.ctx);
    match loss
    case Intact =>
      if Ids(h.ctx.middlewares[h.ctx.index..]) == [] {
        NothingDropped(flat, r'.ctx.index, h.ctx);
      } else {
        FirstDropped(flat, r'.ctx.index, h.ctx, base);
      }
    case Lost =>
    case Skipped =>
      var x :| Parted(h, r', x);
      assert Parted(Run(h.ctx.parent, h.world, h.out, h.started), r', x);
  }

  function Starting<W>(id: nat, r: Run<W>): Run<W> {
    Run(r.ctx, r.world, r.out, [id] + r.started)
  }

  lemma NextStarts<W>(flat: seq<Middleware<W>>, j: nat, w: W, base: Handler<W>)
    requires j < |flat| && flat[j].Plain?
    ensures Next(Link(flat, j, Base), w, base)
         == Starting(flat[j].id, RunProgram(flat[j].program, [], Link(flat, j + 1, Base), w, base))
  {
  }

  lemma TracksStarting<W>(flat: seq<Middleware<W>>, j: nat, loss: Loss, r: Run<W>, r': Run<W>)
    requires Flat(flat) && Distinct(Ids(flat)) && j < |flat| && Valid(r.ctx) && Tracks(flat, loss, r, r')
    requires r'.started <= Ids(flat[j + 1..])
    ensures Tracks(flat, loss, Starting(flat[j].id, r), Starting(flat[j].id, r'))
  {
    if loss.Skipped? {
      assert flat[j..][0] == flat[j] && flat[j..][1..] == flat[j + 1..];
      assert [flat[j].id] + Ids(flat[j + 1..]) == Ids(flat[j..]);
      var x :| Parted(r, r', x);
      PartedLater(flat, j, j + 1, [flat[j].id], r, r', Starting(flat[j].id, r), Starting(flat[j].id, r'), x);
    }
  }

  lemma {:induction false} SimProgram<W(!new)>(flat: seq<Middleware<W>>, j: nat, p: Program<W>, past: seq<Seen<W>>,
                                               c: Context<W>, w: W, base: Handler<W>, loss: Loss)
    requires Valid(c) && StartsNothing(base) && Flat(flat) && Distinct(Ids(flat)) && j <= |flat|
    requires !loss.Skipped? && Alike(flat, loss, j, c)
    ensures Tracks(flat, ProgramLoss(p, past, c, w, base, loss),
                   RunProgram(p, past, c, w, base), RunProgram(p, past, Link(flat, j, Base), w, base))
    decreases Pending(c), 2, p
  {
    if p.Segment? && p.head(w, past).1.CallNext? {
      var w', d := p.head(w, past).0, Link(flat, j, Base);
      var n, n', l := Next(c, w', base), Next(d, w', base), NextLoss(c, w', base, loss);
      var past1, past1' := past + [Seen(w, n.out)], past + [Seen(w, n'.out)];
      var r, r' := RunProgram(p.rest, past1, n.ctx, n.world, base), RunProgram(p.rest, past1', n'.ctx, n'.world, base);
      var whole, whole' := RunProgram(p, past, c, w, base), RunProgram(p, past, d, w, base);
      SimNext(flat, j, c, w', base, loss);
      FlatNext(flat, j, w', base);
      var j1 := n'.ctx.index;
      FlatProgram(flat, j1, p.rest, past1', n'.world, base);
      if l.Skipped? {
        StaysSkipped(p.rest, past1, n.ctx, n.world, base);
        ProgramInOrder(p.rest, past1, n.ctx, n.world, base);
        var x :| Parted(n, n', x);
        PartedStays(n, n', r, r', whole, whole', x);
      } else {
        SimProgram(flat, j1, p.rest, past1, n.ctx, n.world, base, l);
        if ProgramLoss(p.rest, past1, n.ctx, n.world, base, l).Skipped? {
          var x :| Parted(r, r', x);
          PartedLater(flat, j, j1, n'.started, r, r', whole, whole', x);
        }
      }
    }
  }

  /** Once the nested run has fallen behind, any `Next()` parts the two. */
  lemma BehindParts<W(!new)>(flat: seq<Middleware<W>>, j: nat, c: Context<W>, w: W, base: Handler<W>)
    requires Valid(c) && StartsNothing(base) && Flat(flat) && Behind(flat, j, c)
    ensures Parted(Next(c, w, base), Next(Link(flat, j, Base), w, base), flat[j].id)
  {
    NextInOrder(c, w, base);
    var n := Next(c, w, base);
    SubsequenceIn(n.started + PendingIds(n.ctx), PendingIds(c));
    FlatStarts(flat, j, w, base);
    assert flat[j].id !in n.started + PendingIds(n.ctx);
  }

  lemma {:induction false} SimNext<W(!new)>(flat: seq<Middleware<W>>, j: nat, c: Context<W>, w: W, base: Handler<W>,
                                            loss: Loss)
    requires Valid(c) && StartsNothing(base) && Flat(flat) && Distinct(Ids(flat)) && j <= |flat|
    requires !loss.Skipped? && Alike(flat, loss, j, c)
    ensures Tracks(flat, NextLoss(c, w, base, loss), Next(c, w, base), Next(Link(flat, j, Base), w, base))
    decreases Pending(c), 1, Depth(c)
  {
    FlatNext(flat, j, w, base);
    if loss.Lost? {
      BehindParts(flat, j, c, w, base);
    } else if c.Base? {
      assert flat[j..] == [] && j == |flat|;
    } else {
      var Link(ms, i, parent) := c;
      if i < |ms| {
        PendingMembersStep(ms, i, parent);
        SimHandle(flat, j, ms[i], Link(ms, i + 1, parent), w, base);
      } else {
        assert PendingMembers(c) == PendingMembers(parent);
        SimNext(flat, j, parent, w, base, Intact);
        TracksDeeper(flat, NextLoss(parent, w, base, Intact), Next(parent, w, base), ms,
                     Next(Link(flat, j, Base), w, base));
      }
    }
  }

  lemma {:induction false} SimHandle<W(!new)>(flat: seq<Middleware<W>>, j: nat, m: Middleware<W>, c: Context<W>, w: W,
                                              base: Handler<W>)
    requires Valid(c) && StartsNothing(base) && Flat(flat) && Distinct(Ids(flat)) && j <= |flat|
    requires flat[j..] == FlattenOne(m) + Flatten(PendingMembers(c))
    ensures Tracks(flat, HandleLoss(m, c, w, base), Handle(m, c, w, base), Next(Link(flat, j, Base), w, base))
    decreases Pending(c) + Size(m), 0, 0
  {
    match m
    case Plain(id, program) =>
      assert flat[j] == m && flat[j + 1..] == flat[j..][1..] == Flatten(PendingMembers(c));
      SimProgram(flat, j + 1, program, [], c, w, base, Intact);
      FlatProgram(flat, j + 1, program, [], w, base);
      var r, r' := RunProgram(program, [], c, w, base), RunProgram(program, [], Link(flat, j + 1, Base), w, base);
      TracksStarting(flat, j, ProgramLoss(program, [], c, w, base, Intact), r, r');
      NextStarts(flat, j, w, base);
    case Nested(ms) =>
      SimChain(flat, j, c, ms, w, base);
  }

  lemma {:induction false} SimChain<W(!new)>(flat: seq<Middleware<W>>, j: nat, c: Context<W>, ms: seq<Middleware<W>>,
                                             w: W, base: Handler<W>)
    requires Valid(c) && StartsNothing(base) && Flat(flat) && Distinct(Ids(flat)) && j <= |flat|
    requires flat[j..] == Flatten(ms) + Flatten(PendingMembers(c))
    ensures Tracks(flat, ChainLoss(c, ms, w, base), ExecuteChain(c, ms, w, base), Next(Link(flat, j, Base), w, base))
    decreases Pending(c) + SizeAll(ms), 3, 0
  {
    if ms == [] {
      assert flat[j..] == Flatten(PendingMembers(c));
      SimNext(flat, j, c, w, base, Intact);
    } else {
      var child := Link(ms[1..], 0, c);
      assert child.middlewares[0..] == ms[1..];
      FlattenAppend(ms[1..], PendingMembers(c));
      assert flat[j..] == FlattenOne(ms[0]) + Flatten(PendingMembers(child));
      SimHandle(flat, j, ms[0], child, w, base);
      LeaveTracked(flat, HandleLoss(ms[0], child, w, base), Handle(ms[0], child, w, base),
                   Next(Link(flat, j, Base), w, base), base);
    }
  }

  /**
   The exact law of flattening, for handlers told apart by their ids that may call
   `Next()` any number of times: the chain runs as the flat list of its handlers if and
   only if no `Next()` is called after a built chain has returned with handlers left.
   */
  lemma NestingIsFlatteningIff<W(!new)>(ms: seq<Middleware<W>>, w: W, base: Handler<W>)
    requires StartsNothing(base) && Distinct(Ids(ms))
    ensures Observed(ExecuteChain(Base, ms, w, base)) == Observed(ExecuteChain(Base, Flatten(ms), w, base))
            <==> !ChainLoss(Base, ms, w, base).Skipped?
  {
    var flat := Flatten(ms);
    FlattenIds(ms);
    assert flat[0..] == flat + Flatten(PendingMembers<W>(Base));
    SimChain(flat, 0, Base, ms, w, base);
    assert flat[0..] == flat;
    RestIsChain(flat, 0, Base, base);
    assert Observed(Next(Link(flat, 0, Base), w, base)) == ChainOn(Base, flat, base)(w);
  }

  /** Handlers that call `Next()` at most once never call it after a chain has returned with handlers left. */
  lemma OnceSkipsNothing<W(!new)>(ms: seq<Middleware<W>>, w: W, base: Handler<W>)
    requires StartsNothing(base) && Distinct(Ids(ms)) && OnceEach(ms)
    ensures !ChainLoss(Base, ms, w, base).Skipped?
  {
    NestingIsFlattening(ms, [], w, base);
    assert ms + [] == ms && Flatten(ms) + [] == Flatten(ms);
    NestingIsFlatteningIff(ms, w, base);
  }
}

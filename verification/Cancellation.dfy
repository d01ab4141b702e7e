/** What a cancellation, a foreign watch event and a closed channel do to the pipelines, over whole runs. */
module Cancellation {
  import opened Pipeline

  ghost predicate Cancels<P>(run: seq<Action<P>>) {
    exists a <- run :: a.Cancel?
  }

  /** The context is cancelled after a run exactly when it was before, or the run cancels it. */
  lemma {:induction false} CancelledIff<P, G>(kind: Kind, convert: P -> G, s: State<P, G>, run: seq<Action<P>>)
    requires CanRun(kind, convert, s, run)
    ensures After(kind, convert, s, run).cancelled <==> s.cancelled || Cancels(run)
    decreases |run|
  {
    if run != [] {
      assert run == [run[0]] + run[1..];
      CancelledIff(kind, convert, Apply(kind, convert, s, run[0]), run[1..]);
    }
  }

  // ---------------------------------------------------------------------------
  // Both goroutines can leave
  // ---------------------------------------------------------------------------

  /** The steps a producer that is not waiting for the log takes to leave. */
  function ProducerLeaves<P, G>(s: State<P, G>): seq<Action<P>> {
    [if s.producer.Checking? then CheckContext else ProducerCancelled] + [CloseEvents]
  }

  function ConverterLeaves<P>(): seq<Action<P>> {
    [ConverterCancelled] + [CloseService]
  }

  lemma TwoSteps<P, G>(kind: Kind, convert: P -> G, s: State<P, G>, a: Action<P>, b: Action<P>)
    requires Enabled(kind, s, a) && Enabled(kind, Apply(kind, convert, s, a), b)
    ensures CanRun(kind, convert, s, [a] + [b])
    ensures After(kind, convert, s, [a] + [b]) == Apply(kind, convert, Apply(kind, convert, s, a), b)
  {
    assert ([a] + [b])[1..] == [b] && [b][1..] == [];
    var s1 := Apply(kind, convert, s, a);
    assert CanRun(kind, convert, Apply(kind, convert, s1, b), []);
    assert After(kind, convert, s1, [b]) == Apply(kind, convert, s1, b);
  }

  /**
   After any run that cancels the context, whatever the buffers hold and with nobody
   consuming: a producer that checks the context or holds an event, and one that waits in
   the pod watch, gets to its end in two steps of its own. A log stream that waits for a
   line cannot.
   */
  lemma CancelledProducerLeaves<P, G>(kind: Kind, convert: P -> G, run: seq<Action<P>>)
    requires CanRun(kind, convert, Initial<P, G>(), run) && Cancels(run)
    ensures var s := After(kind, convert, Initial<P, G>(), run);
            && (s.producer.Checking? || s.producer.Holding? || (kind.PodWatch? && s.producer.Waiting?) ==>
                  && CanRun(kind, convert, s, ProducerLeaves(s))
                  && var s' := After(kind, convert, s, ProducerLeaves(s));
                  && s'.producer.Done? && s'.eventsCloses == 1 && s'.producerDropped == ProducerHeld(s.producer)
                  && s'.serviceChan == s.serviceChan && s'.eventsChan == s.eventsChan && s'.output == s.output)
            && (kind.LogStream? && s.producer.Waiting? ==>
                  forall a :: Enabled(kind, s, a) && Apply(kind, convert, s, a).producer != Waiting ==>
                    a.Receive? || a.ProducerEnds?)
  {
    var s := After(kind, convert, Initial<P, G>(), run);
    CancelledIff(kind, convert, Initial<P, G>(), run);
    ReachableKeeps<P, G>(kind, convert, run);
    if s.producer.Checking? {
      TwoSteps(kind, convert, s, CheckContext, CloseEvents);
    } else if s.producer.Holding? || (kind.PodWatch? && s.producer.Waiting?) {
      TwoSteps(kind, convert, s, ProducerCancelled, CloseEvents);
    }
  }

  /** Likewise for a converter that holds an event. */
  lemma CancelledConverterLeaves<P, G>(kind: Kind, convert: P -> G, run: seq<Action<P>>)
    requires CanRun(kind, convert, Initial<P, G>(), run) && Cancels(run)
    requires After(kind, convert, Initial<P, G>(), run).converter.Converted?
    ensures var s := After(kind, convert, Initial<P, G>(), run);
            && CanRun(kind, convert, s, ConverterLeaves())
            && var s' := After(kind, convert, s, ConverterLeaves());
            && s'.converter.Gone? && s'.serviceCloses == 1 && s'.converterDropped == [s.converter.event]
            && !s'.converterPanicked
            && s'.serviceChan == s.serviceChan && s'.eventsChan == s.eventsChan && s'.output == s.output
  {
    var s := After(kind, convert, Initial<P, G>(), run);
    CancelledIff(kind, convert, Initial<P, G>(), run);
    ReachableKeeps<P, G>(kind, convert, run);
    TwoSteps(kind, convert, s, ConverterCancelled, CloseService);
  }

  // ---------------------------------------------------------------------------
  // A cancelled log stream passes nothing on
  // ---------------------------------------------------------------------------

  /** At most one line has come since `lines` had, and it is with the producer or dropped by it. */
  ghost predicate Silenced<P, G>(lines: seq<P>, s: State<P, G>) {
    && s.cancelled && lines <= s.taken && |s.taken| <= |lines| + 1
    && (|s.taken| > |lines| ==> !s.producer.Waiting? && !s.producer.Holding? && |AtProducer(s)| == 1)
  }

  lemma SilencedStep<P, G>(convert: P -> G, lines: seq<P>, s: State<P, G>, a: Action<P>)
    requires Disciplined(LogStream, s) && Silenced(lines, s) && Enabled(LogStream, s, a)
    ensures Silenced(lines, Apply(LogStream, convert, s, a))
  {
  }

  lemma {:induction false} SilencedRun<P, G>(convert: P -> G, lines: seq<P>, s: State<P, G>, run: seq<Action<P>>)
    requires Disciplined(LogStream, s) && Silenced(lines, s) && CanRun(LogStream, convert, s, run)
    ensures Silenced(lines, After(LogStream, convert, s, run))
    decreases |run|
  {
    if run != [] {
      SilencedStep(convert, lines, s, run[0]);
      DisciplinedStep(LogStream, convert, s, run[0]);
      SilencedRun(convert, lines, Apply(LogStream, convert, s, run[0]), run[1..]);
    }
  }

  lemma {:induction false} RunAppend<P, G>(kind: Kind, convert: P -> G, s: State<P, G>, a: seq<Action<P>>,
                                           b: seq<Action<P>>)
    requires CanRun(kind, convert, s, a + b)
    ensures CanRun(kind, convert, s, a) && CanRun(kind, convert, After(kind, convert, s, a), b)
    ensures After(kind, convert, s, a + b) == After(kind, convert, After(kind, convert, s, a), b)
    decreases |a|
  {
    if a == [] {
      assert a + b == b;
    } else {
      assert (a + b)[1..] == a[1..] + b;
      RunAppend(kind, convert, Apply(kind, convert, s, a[0]), a[1..], b);
    }
  }

  lemma PrefixOfTaken<P, G>(convert: P -> G, lines: seq<P>, s: State<P, G>)
    requires Conserved(convert, s) && Silenced(lines, s)
    ensures Downstream(s) + Map(convert, s.serviceChan) <= Map(convert, lines)
  {
    var passed := Downstream(s) + Map(convert, s.serviceChan);
    MapAppend(convert, s.serviceChan, AtProducer(s));
    Reassociate(Downstream(s), Map(convert, s.serviceChan), Map(convert, AtProducer(s)));
    assert Map(convert, s.taken) == passed + Map(convert, AtProducer(s));
    assert s.taken == lines + s.taken[|lines|..];
    MapAppend(convert, lines, s.taken[|lines|..]);
    assert |passed| <= |lines|;
    assert Map(convert, lines)[..|passed|] == Map(convert, s.taken)[..|passed|] == passed;
  }

  /**
   In the log stream, nothing that comes after a cancellation is passed on: whatever run
   follows, the lines in `serviceChan`, with the converter, in `eventsChan` and delivered
   are an initial part of those that had come before it, and at most one more is read.
   */
  lemma CancelledLogStreamIsSilent<P, G>(convert: P -> G, before: seq<Action<P>>, later: seq<Action<P>>)
    requires CanRun(LogStream, convert, Initial<P, G>(), before + later) && Cancels(before)
    ensures CanRun(LogStream, convert, Initial<P, G>(), before)
    ensures var s := After(LogStream, convert, Initial<P, G>(), before);
            var s' := After(LogStream, convert, Initial<P, G>(), before + later);
            && Downstream(s') + Map(convert, s'.serviceChan) <= Map(convert, s.taken)
            && s.taken <= s'.taken && |s'.taken| <= |s.taken| + 1
  {
    RunAppend<P, G>(LogStream, convert, Initial(), before, later);
    var s := After(LogStream, convert, Initial<P, G>(), before);
    CancelledIff<P, G>(LogStream, convert, Initial(), before);
    ReachableKeeps<P, G>(LogStream, convert, before);
    SilencedRun(convert, s.taken, s, later);
    ReachableKeeps<P, G>(LogStream, convert, before + later);
    PrefixOfTaken(convert, s.taken, After(LogStream, convert, Initial<P, G>(), before + later));
  }

  // ---------------------------------------------------------------------------
  // Foreign events, full buffers, closed channels
  // ---------------------------------------------------------------------------

  function WithoutForeign<P>(run: seq<Action<P>>): seq<Action<P>> {
    if run == [] then []
    else if run[0].Receive? && run[0].input.Foreign? then WithoutForeign(run[1..])
    else [run[0]] + WithoutForeign(run[1..])
  }

  /** Watch events that are not about pods leave no trace. */
  lemma {:induction false} ForeignEventsLeaveNoTrace<P, G>(kind: Kind, convert: P -> G, s: State<P, G>,
                                                           run: seq<Action<P>>)
    requires CanRun(kind, convert, s, run)
    ensures CanRun(kind, convert, s, WithoutForeign(run))
    ensures After(kind, convert, s, WithoutForeign(run)) == After(kind, convert, s, run)
    decreases |run|
  {
    if run != [] {
      var rest := WithoutForeign(run[1..]);
      ForeignEventsLeaveNoTrace(kind, convert, Apply(kind, convert, s, run[0]), run[1..]);
      assert !(run[0].Receive? && run[0].input.Foreign?) ==> WithoutForeign(run)[1..] == rest;
    }
  }

  /** In every reachable state a goroutine with an event in hand is kept from sending exactly by 100 waiting ones. */
  lemma SendsBlockAtHundred<P, G>(kind: Kind, convert: P -> G, run: seq<Action<P>>)
    requires CanRun(kind, convert, Initial<P, G>(), run)
    ensures var s := After(kind, convert, Initial<P, G>(), run);
            && |s.serviceChan| <= 100 && |s.eventsChan| <= 100
            && (s.producer.Holding? && !s.converter.Gone? ==>
                  (Enabled(kind, s, ProducerSend) <==> |s.serviceChan| < 100))
            && (s.converter.Converted? && !s.producer.Done? ==>
                  (Enabled(kind, s, ConverterSend) <==> |s.eventsChan| < 100))
  {
    ReachableKeeps<P, G>(kind, convert, run);
  }

  /** Some step of the run is a producer's send after the converter has closed `serviceChan`. */
  predicate ProducerSendsOnClosed<P, G>(kind: Kind, convert: P -> G, s: State<P, G>, run: seq<Action<P>>)
    requires CanRun(kind, convert, s, run)
    decreases |run|
  {
    run != [] && ((run[0].ProducerSend? && s.converter.Gone?)
                  || ProducerSendsOnClosed(kind, convert, Apply(kind, convert, s, run[0]), run[1..]))
  }

  predicate ConverterSendsOnClosed<P, G>(kind: Kind, convert: P -> G, s: State<P, G>, run: seq<Action<P>>)
    requires CanRun(kind, convert, s, run)
    decreases |run|
  {
    run != [] && ((run[0].ConverterSend? && s.producer.Done?)
                  || ConverterSendsOnClosed(kind, convert, Apply(kind, convert, s, run[0]), run[1..]))
  }

  /** A goroutine panics exactly when it sends after the other one has closed the channel. */
  lemma {:induction false} PanicIffSendOnClosed<P, G>(kind: Kind, convert: P -> G, s: State<P, G>, run: seq<Action<P>>)
    requires Disciplined(kind, s) && CanRun(kind, convert, s, run)
    ensures var s' := After(kind, convert, s, run);
            && (s'.producerPanicked <==> s.producerPanicked || ProducerSendsOnClosed(kind, convert, s, run))
            && (s'.converterPanicked <==> s.converterPanicked || ConverterSendsOnClosed(kind, convert, s, run))
    decreases |run|
  {
    if run != [] {
      DisciplinedStep(kind, convert, s, run[0]);
      PanicIffSendOnClosed(kind, convert, Apply(kind, convert, s, run[0]), run[1..]);
    }
  }
}

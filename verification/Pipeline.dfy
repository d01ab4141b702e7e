/**
 The subscription pipelines: a producer goroutine that feeds `serviceChan`, a converter
 goroutine that moves events on to `eventsChan`, a consumer, and a cancellable context.
 Every send, receive, close and branch of a select is one atomic step; steps of the
 goroutines interleave freely. The pod watch and the log stream differ only in the
 producer's loop.
 */
module Pipeline {
  const CAPACITY: nat := 100

  datatype Kind = PodWatch | LogStream

  /** What the producer is doing. `Checking` occurs in the log stream only. */
  datatype Producer<P> =
    | Waiting                // in the outer select, or in Scan
    | Checking(event: P)     // a line was scanned; the context is looked at next
    | Holding(event: P)      // in the select that sends to serviceChan
    | Returned               // the service call is over; its defer has still to run
    | Done

  /** What the converter is doing. */
  datatype Converter<G> =
    | Ranging                // at the head of `for event := range serviceChan`
    | Converted(event: G)    // in the select that sends to eventsChan
    | Leaving                // out of the loop; its defer has still to run
    | Gone

  datatype State<P, G> = State(
    cancelled: bool,
    producer: Producer<P>,
    serviceChan: seq<P>,
    serviceCloses: nat,
    converter: Converter<G>,
    eventsChan: seq<G>,
    eventsCloses: nat,
    producerPanicked: bool,
    converterPanicked: bool,
    // What the outside has seen of the run:
    taken: seq<P>,           // pod events, or log lines, handed to the producer
    output: seq<G>,          // events received by the consumer
    producerDropped: seq<P>, // the event the producer held when it gave up
    converterDropped: seq<G> // the event the converter held when it gave up
  )

  datatype Input<P> = Pod(event: P) | Foreign

  datatype Action<P> =
    | Cancel                   // the context is cancelled
    | Receive(input: Input<P>) // the watcher, or the scanner, delivers
    | CheckContext             // the log stream looks at the context
    | ProducerSend
    | ProducerCancelled        // a producer select takes its Done branch
    | ProducerEnds             // the watch or the stream ends, or never started
    | CloseEvents
    | ConverterReceive
    | ConverterRangeEnds       // the range finds serviceChan closed and drained
    | ConverterSend
    | ConverterCancelled
    | CloseService
    | Consume

  function Initial<P, G>(): State<P, G> {
    State(false, Waiting, [], 0, Ranging, [], 0, false, false, [], [], [], [])
  }

  predicate Enabled<P, G>(kind: Kind, s: State<P, G>, a: Action<P>) {
    match a
    case Cancel => true
    case Receive(input) => s.producer.Waiting? && (kind.LogStream? ==> input.Pod?)
    case CheckContext => s.producer.Checking?
    case ProducerSend => s.producer.Holding? && (s.serviceCloses > 0 || |s.serviceChan| < CAPACITY)
    case ProducerCancelled => s.cancelled && (s.producer.Holding? || (kind.PodWatch? && s.producer.Waiting?))
    case ProducerEnds => s.producer.Waiting?
    case CloseEvents => s.producer.Returned?
    case ConverterReceive => s.converter.Ranging? && s.serviceChan != []
    case ConverterRangeEnds => s.converter.Ranging? && s.serviceChan == [] && s.serviceCloses > 0
    case ConverterSend => s.converter.Converted? && (s.eventsCloses > 0 || |s.eventsChan| < CAPACITY)
    case ConverterCancelled => s.converter.Converted? && s.cancelled
    case CloseService => s.converter.Leaving?
    case Consume => s.eventsChan != []
  }

  /** Sending on, or closing, a closed channel panics; the goroutine's defer still runs. */
  function Apply<P, G>(kind: Kind, convert: P -> G, s: State<P, G>, a: Action<P>): State<P, G>
    requires Enabled(kind, s, a)
  {
    match a
    case Cancel => s.(cancelled := true)
    case Receive(input) =>
      if input.Foreign? then s else
        s.(taken := s.taken + [input.event],
           producer := if kind.PodWatch? then Holding(input.event) else Checking(input.event))
    case CheckContext =>
      if s.cancelled then s.(producer := Returned, producerDropped := [s.producer.event])
      else s.(producer := Holding(s.producer.event))
    case ProducerSend =>
      if s.serviceCloses > 0 then
        s.(producer := Returned, producerPanicked := true, producerDropped := [s.producer.event])
      else
        s.(producer := Waiting, serviceChan := s.serviceChan + [s.producer.event])
    case ProducerCancelled =>
      s.(producer := Returned, producerDropped := if s.producer.Holding? then [s.producer.event] else [])
    case ProducerEnds => s.(producer := Returned)
    case CloseEvents =>
      s.(producer := Done, eventsCloses := s.eventsCloses + 1,
         producerPanicked := s.producerPanicked || s.eventsCloses > 0)
    case ConverterReceive =>
      s.(converter := Converted(convert(s.serviceChan[0])), serviceChan := s.serviceChan[1..])
    case ConverterRangeEnds => s.(converter := Leaving)
    case ConverterSend =>
      if s.eventsCloses > 0 then
        s.(converter := Leaving, converterPanicked := true, converterDropped := [s.converter.event])
      else
        s.(converter := Ranging, eventsChan := s.eventsChan + [s.converter.event])
    case ConverterCancelled => s.(converter := Leaving, converterDropped := [s.converter.event])
    case CloseService =>
      s.(converter := Gone, serviceCloses := s.serviceCloses + 1,
         converterPanicked := s.converterPanicked || s.serviceCloses > 0)
    case Consume => s.(eventsChan := s.eventsChan[1..], output := s.output + [s.eventsChan[0]])
  }

  ghost predicate CanRun<P, G>(kind: Kind, convert: P -> G, s: State<P, G>, run: seq<Action<P>>)
    decreases |run|
  {
    run != [] ==> Enabled(kind, s, run[0]) && CanRun(kind, convert, Apply(kind, convert, s, run[0]), run[1..])
  }

  ghost function After<P, G>(kind: Kind, convert: P -> G, s: State<P, G>, run: seq<Action<P>>): State<P, G>
    requires CanRun(kind, convert, s, run)
    decreases |run|
  {
    if run == [] then s else After(kind, convert, Apply(kind, convert, s, run[0]), run[1..])
  }

  // ---------------------------------------------------------------------------
  // What every reachable state satisfies
  // ---------------------------------------------------------------------------

  function Map<P, G>(convert: P -> G, s: seq<P>): (r: seq<G>)
    ensures |r| == |s|
  {
    if s == [] then [] else [convert(s[0])] + Map(convert, s[1..])
  }

  lemma {:induction false} MapAppend<P, G>(convert: P -> G, a: seq<P>, b: seq<P>)
    ensures Map(convert, a + b) == Map(convert, a) + Map(convert, b)
    decreases |a|
  {
    if a == [] {
      assert a + b == b;
    } else {
      assert (a + b)[1..] == a[1..] + b;
      MapAppend(convert, a[1..], b);
    }
  }

  function ProducerHeld<P>(p: Producer<P>): seq<P> {
    if p.Checking? || p.Holding? then [p.event] else []
  }

  function ConverterHeld<G>(c: Converter<G>): seq<G> {
    if c.Converted? then [c.event] else []
  }

  /** The event past `serviceChan` that is in neither buffer: held by the converter, or dropped by it. */
  function AtConverter<P, G>(s: State<P, G>): seq<G> {
    if s.converter.Converted? then [s.converter.event] else s.converterDropped
  }

  function AtProducer<P, G>(s: State<P, G>): seq<P> {
    if s.producer.Checking? || s.producer.Holding? then [s.producer.event] else s.producerDropped
  }

  /** The events that have left `serviceChan`, oldest first. */
  function Downstream<P, G>(s: State<P, G>): seq<G> {
    s.output + (s.eventsChan + AtConverter(s))
  }

  /** The events that have not reached the converter, oldest first. */
  function Upstream<P, G>(s: State<P, G>): seq<P> {
    s.serviceChan + AtProducer(s)
  }

  ghost predicate Conserved<P, G>(convert: P -> G, s: State<P, G>) {
    Downstream(s) + Map(convert, Upstream(s)) == Map(convert, s.taken)
  }

  ghost predicate Disciplined<P, G>(kind: Kind, s: State<P, G>) {
    && |s.serviceChan| <= CAPACITY && |s.eventsChan| <= CAPACITY
    && s.eventsCloses == (if s.producer.Done? then 1 else 0)
    && s.serviceCloses == (if s.converter.Gone? then 1 else 0)
    && |s.producerDropped| <= 1 && |s.converterDropped| <= 1
    && (s.producerDropped != [] ==> s.cancelled && (s.producer.Returned? || s.producer.Done?))
    && (s.converterDropped != [] <==> s.converter.Leaving? || s.converter.Gone?)
    && (s.converterDropped != [] ==> s.cancelled || s.converterPanicked)
    && (s.producerPanicked ==> s.cancelled)
    && (s.converterPanicked ==> s.producer.Done? && s.converterDropped != [])
    && (s.producer.Checking? ==> kind.LogStream?)
  }

  lemma DisciplinedStep<P, G>(kind: Kind, convert: P -> G, s: State<P, G>, a: Action<P>)
    requires Disciplined(kind, s) && Enabled(kind, s, a)
    ensures Disciplined(kind, Apply(kind, convert, s, a))
  {
    match a
    case Cancel =>
    case Receive(_) =>
    case CheckContext =>
    case ProducerSend =>
    case ProducerCancelled =>
    case ProducerEnds =>
    case CloseEvents =>
    case ConverterReceive =>
    case ConverterRangeEnds =>
    case ConverterSend =>
    case ConverterCancelled =>
    case CloseService =>
    case Consume =>
  }

  lemma FrontMovesOut<T>(out: seq<T>, buffer: seq<T>, rest: seq<T>)
    requires buffer != []
    ensures (out + [buffer[0]]) + (buffer[1..] + rest) == out + (buffer + rest)
  {
    assert buffer + rest == [buffer[0]] + (buffer[1..] + rest);
  }

  lemma DownstreamStep<P, G>(kind: Kind, convert: P -> G, s: State<P, G>, a: Action<P>)
    requires Disciplined(kind, s) && Enabled(kind, s, a)
    ensures var s' := Apply(kind, convert, s, a);
            Downstream(s') == if a.ConverterReceive? then Downstream(s) + [convert(s.serviceChan[0])] else Downstream(s)
  {
    var s' := Apply(kind, convert, s, a);
    if a.Consume? {
      FrontMovesOut(s.output, s.eventsChan, AtConverter(s));
    } else if a.ConverterSend? && s.eventsCloses == 0 {
      assert AtConverter(s') == [] && s'.eventsChan + [] == s.eventsChan + AtConverter(s);
    } else if a.ConverterReceive? {
      assert AtConverter(s) == [] && s.eventsChan + [] == s.eventsChan;
      Reassociate(s.output, s.eventsChan, AtConverter(s'));
    } else {
      assert AtConverter(s') == AtConverter(s);
    }
  }

  lemma UpstreamReceive<P, G>(kind: Kind, convert: P -> G, s: State<P, G>)
    requires Disciplined(kind, s) && Enabled(kind, s, ConverterReceive)
    ensures Upstream(s) == [s.serviceChan[0]] + Upstream(Apply(kind, convert, s, ConverterReceive))
  {
    var rest := s.serviceChan[1..];
    assert s.serviceChan == [s.serviceChan[0]] + rest;
    Reassociate([s.serviceChan[0]], rest, AtProducer(s));
  }

  lemma UpstreamSend<P, G>(kind: Kind, convert: P -> G, s: State<P, G>)
    requires Disciplined(kind, s) && Enabled(kind, s, ProducerSend)
    ensures Upstream(Apply(kind, convert, s, ProducerSend)) == Upstream(s)
  {
    var s' := Apply(kind, convert, s, ProducerSend);
    if s.serviceCloses == 0 {
      assert AtProducer(s') == [] && s'.serviceChan == s.serviceChan + AtProducer(s);
    } else {
      assert AtProducer(s') == AtProducer(s);
    }
  }

  lemma UpstreamStep<P, G>(kind: Kind, convert: P -> G, s: State<P, G>, a: Action<P>)
    requires Disciplined(kind, s) && Enabled(kind, s, a)
    ensures var s' := Apply(kind, convert, s, a);
            if a.ConverterReceive? then Upstream(s) == [s.serviceChan[0]] + Upstream(s')
            else Upstream(s') == Upstream(s) + (if a.Receive? && a.input.Pod? then [a.input.event] else [])
  {
    var s' := Apply(kind, convert, s, a);
    if a.ConverterReceive? {
      UpstreamReceive(kind, convert, s);
    } else if a.ProducerSend? {
      UpstreamSend(kind, convert, s);
    } else if a.Receive? {
      assert AtProducer(s) == [] && s'.serviceChan == s.serviceChan;
    } else {
      assert AtProducer(s') == AtProducer(s) && s'.serviceChan == s.serviceChan;
    }
  }

  lemma Reassociate<T>(a: seq<T>, b: seq<T>, c: seq<T>)
    ensures (a + b) + c == a + (b + c)
  {
  }

  lemma ConservedStep<P, G>(kind: Kind, convert: P -> G, s: State<P, G>, a: Action<P>)
    requires Disciplined(kind, s) && Conserved(convert, s) && Enabled(kind, s, a)
    ensures Conserved(convert, Apply(kind, convert, s, a))
  {
    var s' := Apply(kind, convert, s, a);
    var down, down', up, up' := Downstream(s), Downstream(s'), Upstream(s), Upstream(s');
    var arrived := if a.Receive? && a.input.Pod? then [a.input.event] else [];
    assert s'.taken == s.taken + arrived;
    DownstreamStep(kind, convert, s, a);
    UpstreamStep(kind, convert, s, a);
    if a.ConverterReceive? {
      MoveOver(convert, down, up', s.serviceChan[0]);
    } else {
      assert down' == down;
      Grow(convert, down, up, s.taken, arrived);
    }
  }

  lemma MoveOver<P, G>(convert: P -> G, down: seq<G>, up: seq<P>, e: P)
    ensures (down + [convert(e)]) + Map(convert, up) == down + Map(convert, [e] + up)
  {
    assert ([e] + up)[1..] == up;
  }

  lemma Grow<P, G>(convert: P -> G, down: seq<G>, up: seq<P>, taken: seq<P>, arrived: seq<P>)
    requires down + Map(convert, up) == Map(convert, taken)
    ensures down + Map(convert, up + arrived) == Map(convert, taken + arrived)
  {
    MapAppend(convert, up, arrived);
    MapAppend(convert, taken, arrived);
    Reassociate(down, Map(convert, up), Map(convert, arrived));
  }

  lemma {:induction false} RunKeeps<P, G>(kind: Kind, convert: P -> G, s: State<P, G>, run: seq<Action<P>>)
    requires Disciplined(kind, s) && Conserved(convert, s) && CanRun(kind, convert, s, run)
    ensures Disciplined(kind, After(kind, convert, s, run)) && Conserved(convert, After(kind, convert, s, run))
    decreases |run|
  {
    if run != [] {
      DisciplinedStep(kind, convert, s, run[0]);
      ConservedStep(kind, convert, s, run[0]);
      RunKeeps(kind, convert, Apply(kind, convert, s, run[0]), run[1..]);
    }
  }

  lemma ReachableKeeps<P, G>(kind: Kind, convert: P -> G, run: seq<Action<P>>)
    requires CanRun(kind, convert, Initial<P, G>(), run)
    ensures var s := After(kind, convert, Initial<P, G>(), run); Disciplined(kind, s) && Conserved(convert, s)
  {
    RunKeeps(kind, convert, Initial<P, G>(), run);
  }

  lemma ConservedIsPrefix<P, G>(convert: P -> G, s: State<P, G>)
    requires Conserved(convert, s)
    ensures s.output <= s.output + s.eventsChan <= Map(convert, s.taken)
  {
    assert Map(convert, s.taken) == (s.output + s.eventsChan) + (AtConverter(s) + Map(convert, Upstream(s)));
  }

  /** In every run, what the consumer has and can still receive is an initial part of what was taken. */
  lemma DeliveryIsPrefix<P, G>(kind: Kind, convert: P -> G, run: seq<Action<P>>)
    requires CanRun(kind, convert, Initial<P, G>(), run)
    ensures var s := After(kind, convert, Initial<P, G>(), run);
            s.output + s.eventsChan <= Map(convert, s.taken)
  {
    ReachableKeeps<P, G>(kind, convert, run);
    ConservedIsPrefix(convert, After(kind, convert, Initial<P, G>(), run));
  }

  /** No event has been given up: not cancelled, and the service call is still running. */
  predicate Live<P, G>(s: State<P, G>) {
    !s.cancelled && !s.producer.Returned? && !s.producer.Done?
  }

  /** While the pipeline is live, every event taken is delivered, buffered or held, once and in order. */
  lemma NothingLost<P, G>(kind: Kind, convert: P -> G, run: seq<Action<P>>)
    requires CanRun(kind, convert, Initial<P, G>(), run)
    requires Live(After(kind, convert, Initial<P, G>(), run))
    ensures var s := After(kind, convert, Initial<P, G>(), run);
            && s.output + s.eventsChan + ConverterHeld(s.converter)
               + Map(convert, s.serviceChan + ProducerHeld(s.producer)) == Map(convert, s.taken)
            && |s.serviceChan| <= CAPACITY && |s.eventsChan| <= CAPACITY
  {
    ReachableKeeps<P, G>(kind, convert, run);
    var s := After(kind, convert, Initial<P, G>(), run);
    assert Upstream(s) == s.serviceChan + ProducerHeld(s.producer);
    assert Downstream(s) == s.output + s.eventsChan + ConverterHeld(s.converter);
  }

  /**
   In every run each channel is closed at most once; the producer's send meets a closed
   channel only after cancellation, the converter's only after the service call is over.
   Events given up are at most one per goroutine, and in place between the delivered and
   the undelivered ones.
   */
  lemma CloseDiscipline<P, G>(kind: Kind, convert: P -> G, run: seq<Action<P>>)
    requires CanRun(kind, convert, Initial<P, G>(), run)
    ensures var s := After(kind, convert, Initial<P, G>(), run);
            && s.eventsCloses <= 1 && s.serviceCloses <= 1
            && (s.producerPanicked ==> s.cancelled)
            && (s.converterPanicked ==> s.producer.Done?)
            && !Enabled(kind, s, ConverterRangeEnds)
            && |s.producerDropped| <= 1 && |s.converterDropped| <= 1
            && (s.output + s.eventsChan + ConverterHeld(s.converter) + s.converterDropped
                + Map(convert, s.serviceChan + ProducerHeld(s.producer) + s.producerDropped) == Map(convert, s.taken))
  {
    ReachableKeeps<P, G>(kind, convert, run);
    var s := After(kind, convert, Initial<P, G>(), run);
    assert Upstream(s) == s.serviceChan + ProducerHeld(s.producer) + s.producerDropped;
    assert Downstream(s) == s.output + s.eventsChan + ConverterHeld(s.converter) + s.converterDropped;
  }

  // ---------------------------------------------------------------------------
  // Progress
  // ---------------------------------------------------------------------------

  /** The steps that move an event one place on. */
  predicate Moves<P>(a: Action<P>) {
    a.CheckContext? || a.ProducerSend? || a.ConverterReceive? || a.ConverterSend? || a.Consume?
  }

  /** The number of places the events inside still have to move. */
  function Backlog<P, G>(s: State<P, G>): nat {
    (if s.producer.Checking? then 5 else if s.producer.Holding? then 4 else 0)
    + 3 * |s.serviceChan| + (if s.converter.Converted? then 2 else 0) + |s.eventsChan|
  }

  lemma MoveShrinksBacklog<P, G>(kind: Kind, convert: P -> G, s: State<P, G>, a: Action<P>)
    requires Disciplined(kind, s) && Live(s) && Moves(a) && Enabled(kind, s, a)
    ensures var s' := Apply(kind, convert, s, a);
            Backlog(s') == Backlog(s) - 1 && Live(s') && s'.taken == s.taken
  {
  }

  /** A move that is possible while anything is undelivered: the one nearest the consumer. */
  function NextMove<P, G>(s: State<P, G>): Action<P> {
    if s.eventsChan != [] then Consume
    else if s.converter.Converted? then ConverterSend
    else if s.serviceChan != [] then ConverterReceive
    else if s.producer.Holding? then ProducerSend
    else CheckContext
  }

  lemma BacklogCanMove<P, G>(kind: Kind, s: State<P, G>)
    requires Disciplined(kind, s) && Live(s) && Backlog(s) > 0
    ensures Moves(NextMove(s)) && Enabled(kind, s, NextMove(s))
  {
  }

  ghost predicate AllMoves<P>(run: seq<Action<P>>) {
    forall a <- run :: Moves(a)
  }

  /**
   In a live pipeline with no new input, the goroutines and the consumer make exactly
   `Backlog` moves in whatever order, are never stuck before, and then every event taken
   has been delivered.
   */
  lemma {:induction false} QuietPipelineDelivers<P, G>(kind: Kind, convert: P -> G, s: State<P, G>, run: seq<Action<P>>)
    requires Disciplined(kind, s) && Conserved(convert, s) && Live(s)
    requires CanRun(kind, convert, s, run) && AllMoves(run)
    ensures var s' := After(kind, convert, s, run);
            && |run| + Backlog(s') == Backlog(s)
            && ((exists a :: Moves(a) && Enabled(kind, s', a)) <==> |run| < Backlog(s))
            && (|run| == Backlog(s) ==> s'.output == Map(convert, s.taken))
    decreases |run|
  {
    if run == [] {
      if Backlog(s) > 0 {
        BacklogCanMove(kind, s);
      } else {
        assert Downstream(s) == s.output && Upstream(s) == [];
      }
    } else {
      var s1 := Apply(kind, convert, s, run[0]);
      MoveShrinksBacklog(kind, convert, s, run[0]);
      DisciplinedStep(kind, convert, s, run[0]);
      ConservedStep(kind, convert, s, run[0]);
      QuietPipelineDelivers(kind, convert, s1, run[1..]);
    }
  }

  // ---------------------------------------------------------------------------
  // After the stream has ended
  // ---------------------------------------------------------------------------

  /** Nothing is on its way to `eventsChan`. */
  predicate Drained<P, G>(s: State<P, G>) {
    s.serviceChan == [] && s.converter.Ranging?
  }

  lemma ClosedStep<P, G>(kind: Kind, convert: P -> G, s: State<P, G>, a: Action<P>)
    requires Disciplined(kind, s) && s.producer.Done? && Enabled(kind, s, a)
    ensures var s' := Apply(kind, convert, s, a);
            && s'.output + s'.eventsChan == s.output + s.eventsChan && s'.taken == s.taken
            && s'.producer.Done? && s'.producerDropped == s.producerDropped
            && (Drained(s') <==> Drained(s))
  {
  }

  /**
   In any run after the producer has closed `eventsChan`, cancelled or not, nothing more
   is delivered or taken. If nothing was on its way at that time, the converter waits for
   ever and neither panics nor drops an event; otherwise it never gets back to waiting.
   */
  lemma {:induction false} ClosedMeansNoDelivery<P, G>(kind: Kind, convert: P -> G, s: State<P, G>, run: seq<Action<P>>)
    requires Disciplined(kind, s) && s.producer.Done? && CanRun(kind, convert, s, run)
    ensures var s' := After(kind, convert, s, run);
            && s'.output + s'.eventsChan == s.output + s.eventsChan && s'.taken == s.taken
            && s'.producer.Done? && s'.producerDropped == s.producerDropped
            && (Drained(s') <==> Drained(s))
            && (Drained(s) ==> !s'.converterPanicked && s'.converterDropped == [])
    decreases |run|
  {
    if run != [] {
      var s1 := Apply(kind, convert, s, run[0]);
      DisciplinedStep(kind, convert, s, run[0]);
      ClosedStep(kind, convert, s, run[0]);
      ClosedMeansNoDelivery(kind, convert, s1, run[1..]);
    }
  }

  ghost predicate NoCancel<P>(run: seq<Action<P>>) {
    forall a <- run :: !a.Cancel?
  }

  /** How many steps an ended, uncancelled pipeline still takes. */
  function Remaining<P, G>(s: State<P, G>): nat {
    |s.eventsChan| + match s.converter
                     case Ranging => if s.serviceChan == [] then 0 else 3
                     case Converted(_) => 2
                     case Leaving => 1
                     case Gone => 0
  }

  lemma EndedStep<P, G>(kind: Kind, convert: P -> G, s: State<P, G>, a: Action<P>)
    requires Disciplined(kind, s) && !s.cancelled && s.producer.Done? && !a.Cancel? && Enabled(kind, s, a)
    ensures var s' := Apply(kind, convert, s, a);
            Remaining(s') == Remaining(s) - 1 && !s'.cancelled && s'.producer.Done?
  {
  }

  lemma EndedCanStep<P, G>(kind: Kind, s: State<P, G>)
    requires Disciplined(kind, s) && !s.cancelled && s.producer.Done?
    ensures (exists a: Action<P> :: !a.Cancel? && Enabled(kind, s, a)) <==> Remaining(s) > 0
  {
    if s.eventsChan != [] {
      assert Enabled(kind, s, Consume);
    } else if s.converter.Leaving? {
      assert Enabled(kind, s, CloseService);
    } else if s.converter.Converted? {
      assert Enabled(kind, s, ConverterSend);
    } else if Remaining(s) > 0 {
      assert Enabled(kind, s, ConverterReceive);
    }
  }

  lemma {:induction false} EndedRun<P, G>(kind: Kind, convert: P -> G, s: State<P, G>, run: seq<Action<P>>)
    requires Disciplined(kind, s) && !s.cancelled && s.producer.Done?
    requires CanRun(kind, convert, s, run) && NoCancel(run)
    ensures var s' := After(kind, convert, s, run);
            |run| + Remaining(s') == Remaining(s) && Disciplined(kind, s') && !s'.cancelled
    decreases |run|
  {
    if run != [] {
      EndedStep(kind, convert, s, run[0]);
      DisciplinedStep(kind, convert, s, run[0]);
      EndedRun(kind, convert, Apply(kind, convert, s, run[0]), run[1..]);
    }
  }

  lemma LostEvents<P, G>(convert: P -> G, s: State<P, G>)
    requires Conserved(convert, s) && s.eventsChan == [] && s.producerDropped == [] && s.producer.Done?
    ensures Map(convert, s.taken) == s.output + (AtConverter(s) + Map(convert, s.serviceChan))
    ensures s.output == Map(convert, s.taken) <==> AtConverter(s) == [] && s.serviceChan == []
  {
    assert Upstream(s) == s.serviceChan && Downstream(s) == s.output + AtConverter(s);
    Reassociate(s.output, AtConverter(s), Map(convert, s.serviceChan));
  }

  /**
   When a stream ends by itself, and is never cancelled, the goroutines and the consumer
   take exactly `Remaining` further steps in whatever order. Then the consumer has
   every event taken if and only if nothing was on its way when `eventsChan` was closed;
   otherwise the converter has sent on the closed channel, and the event it held and
   those in `serviceChan` are lost.
   */
  lemma EndedStreamDeliversIffDrained<P, G>(kind: Kind, convert: P -> G, s: State<P, G>, run: seq<Action<P>>)
    requires Disciplined(kind, s) && Conserved(convert, s) && !s.cancelled && s.producer.Done?
    requires CanRun(kind, convert, s, run) && NoCancel(run)
    ensures var s' := After(kind, convert, s, run);
            && |run| + Remaining(s') == Remaining(s)
            && ((exists a: Action<P> :: !a.Cancel? && Enabled(kind, s', a)) <==> |run| < Remaining(s))
            && (!Enabled(kind, s', ConverterReceive) && !Enabled(kind, s', ConverterSend) ==>
                  (s'.converterPanicked <==> !Drained(s)))
            && (|run| == Remaining(s) ==>
                  && (s'.output == Map(convert, s.taken) <==> Drained(s))
                  && (s'.converterPanicked <==> !Drained(s))
                  && Map(convert, s.taken) == s'.output + (s'.converterDropped + Map(convert, s'.serviceChan)))
  {
    var s' := After(kind, convert, s, run);
    EndedRun(kind, convert, s, run);
    RunKeeps(kind, convert, s, run);
    ClosedMeansNoDelivery(kind, convert, s, run);
    EndedCanStep(kind, s');
    if |run| == Remaining(s) {
      LostEvents(convert, s');
      assert AtConverter(s') == s'.converterDropped;
    }
  }

  lemma {:induction false} RunOn<P, G>(kind: Kind, convert: P -> G, s: State<P, G>, run: seq<Action<P>>, a: Action<P>)
    requires CanRun(kind, convert, s, run) && Enabled(kind, After(kind, convert, s, run), a)
    ensures CanRun(kind, convert, s, run + [a])
    ensures After(kind, convert, s, run + [a]) == Apply(kind, convert, After(kind, convert, s, run), a)
    decreases |run|
  {
    if run == [] {
      assert [a][1..] == [];
      assert run + [a] == [a];
    } else {
      assert (run + [a])[1..] == run[1..] + [a];
      RunOn(kind, convert, Apply(kind, convert, s, run[0]), run[1..], a);
    }
  }

  /** The watch, or the log stream, ends by itself while one event is on its way. */
  function EndInFlight<P>(kind: Kind, e: P): seq<Action<P>> {
    [Receive(Pod(e))] + (if kind.LogStream? then [CheckContext] else []) + [ProducerSend]
    + [ConverterReceive] + [ProducerEnds] + [CloseEvents] + [ConverterSend]
  }

  /**
   The loss happens for every event and in both streams: without any cancellation, the
   stream ends while the event is in flight, the event is lost and the converter sends
   on the channel the producer has closed.
   */
  lemma EndInFlightPanics<P, G>(kind: Kind, convert: P -> G, e: P)
    ensures CanRun(kind, convert, Initial<P, G>(), EndInFlight(kind, e))
    ensures var s := After(kind, convert, Initial<P, G>(), EndInFlight(kind, e));
            s.converterPanicked && !s.cancelled && s.taken == [e] && s.output == [] && s.eventsChan == []
  {
    var s0 := Initial<P, G>();
    var run := [Receive(Pod(e))];
    assert [] + [Receive(Pod(e))] == run;
    RunOn(kind, convert, s0, [], Receive(Pod(e)));
    var check := if kind.LogStream? then [CheckContext] else [];
    if kind.LogStream? {
      RunOn(kind, convert, s0, run, CheckContext);
    } else {
      assert run + check == run;
    }
    var sent := run + check + [ProducerSend];
    RunOn(kind, convert, s0, run + check, ProducerSend);
    RunOn(kind, convert, s0, sent, ConverterReceive);
    RunOn(kind, convert, s0, sent + [ConverterReceive], ProducerEnds);
    RunOn(kind, convert, s0, sent + [ConverterReceive] + [ProducerEnds], CloseEvents);
    RunOn(kind, convert, s0, sent + [ConverterReceive] + [ProducerEnds] + [CloseEvents], ConverterSend);
  }
}

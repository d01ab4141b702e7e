/**
 A subscription as the resolver sets it up: two buffered channels shared by a producer
 and a converter goroutine. Each method is one atomic step of one goroutine.
 */
module Subscription {
  import opened Pipeline

  /** A Go channel with `CAPACITY` slots. */
  class Channel<T> {
    var buffer: seq<T>
    var closes: nat

    constructor ()
      ensures buffer == [] && closes == 0
    {
      buffer, closes := [], 0;
    }

    /** Returns false when the send panics because the channel is closed. */
    method Send(x: T) returns (sent: bool)
      requires closes > 0 || |buffer| < CAPACITY
      modifies this
      ensures closes == old(closes) && sent == (closes == 0)
      ensures buffer == if sent then old(buffer) + [x] else old(buffer)
    {
      sent := closes == 0;
      if sent {
        buffer := buffer + [x];
      }
    }

    method Receive() returns (x: T)
      requires buffer != []
      modifies this
      ensures closes == old(closes) && [x] + buffer == old(buffer)
    {
      x := buffer[0];
      buffer := buffer[1..];
    }

    /** Returns false when the close panics because the channel was closed before. */
    method Close() returns (closed: bool)
      modifies this
      ensures buffer == old(buffer) && closes == old(closes) + 1 && closed == (old(closes) == 0)
    {
      closed := closes == 0;
      closes := closes + 1;
    }
  }

  class EventStream<P, G> {
    const kind: Kind
    const convert: P -> G
    const serviceChan: Channel<P>
    const eventsChan: Channel<G>
    var cancelled: bool
    var producer: Producer<P>
    var converter: Converter<G>
    var producerPanicked: bool
    var converterPanicked: bool
    // Observed from outside
    var taken: seq<P>
    var output: seq<G>
    var producerDropped: seq<P>
    var converterDropped: seq<G>

    ghost predicate Valid()
      reads this, serviceChan, eventsChan
    {
      && serviceChan as object != eventsChan
      && Disciplined(kind, View()) && Conserved(convert, View())
    }

    function View(): State<P, G>
      reads this, serviceChan, eventsChan
    {
      State(cancelled, producer, serviceChan.buffer, serviceChan.closes, converter,
            eventsChan.buffer, eventsChan.closes, producerPanicked, converterPanicked,
            taken, output, producerDropped, converterDropped)
    }

    ghost predicate Can(a: Action<P>)
      reads this, serviceChan, eventsChan
    {
      Enabled(kind, View(), a)
    }

    constructor (kind: Kind, convert: P -> G)
      ensures Valid() && View() == Initial() && this.kind == kind && this.convert == convert
      ensures fresh(serviceChan) && fresh(eventsChan)
    {
      this.kind, this.convert := kind, convert;
      serviceChan := new Channel<P>();
      eventsChan := new Channel<G>();
      cancelled, producer, converter := false, Waiting, Ranging;
      producerPanicked, converterPanicked := false, false;
      taken, output, producerDropped, converterDropped := [], [], [], [];
    }

    method Cancel()
      requires Valid()
      modifies this
      ensures Valid() && View() == Apply(kind, convert, old(View()), Action<P>.Cancel)
      ensures cancelled
    {
      cancelled := true;
    }

    method Receive(input: Input<P>)
      requires Valid() && Can(Action.Receive(input))
      modifies this
      ensures Valid() && View() == Apply(kind, convert, old(View()), Action.Receive(input))
    {
      KeepsValid(Action.Receive(input));
      if input.Pod? {
        taken := taken + [input.event];
        producer := if kind.PodWatch? then Holding(input.event) else Checking(input.event);
      }
    }

    method CheckContext()
      requires Valid() && Can(Action.CheckContext)
      modifies this
      ensures Valid() && View() == Apply(kind, convert, old(View()), Action<P>.CheckContext)
    {
      KeepsValid(Action<P>.CheckContext);
      if cancelled {
        producerDropped := [producer.event];
        producer := Returned;
      } else {
        producer := Holding(producer.event);
      }
    }

    /** The select's send branch. */
    method ProducerSend()
      requires Valid() && Can(Action.ProducerSend)
      modifies this, serviceChan
      ensures Valid() && View() == Apply(kind, convert, old(View()), Action<P>.ProducerSend)
    {
      KeepsValid(Action<P>.ProducerSend);
      var sent := serviceChan.Send(producer.event);
      if sent {
        producer := Waiting;
      } else {
        producerDropped := [producer.event];
        producer, producerPanicked := Returned, true;
      }
    }

    /** A select's Done branch. */
    method ProducerCancelled()
      requires Valid() && Can(Action.ProducerCancelled)
      modifies this
      ensures Valid() && View() == Apply(kind, convert, old(View()), Action<P>.ProducerCancelled)
    {
      KeepsValid(Action<P>.ProducerCancelled);
      producerDropped := if producer.Holding? then [producer.event] else [];
      producer := Returned;
    }

    method ProducerEnds()
      requires Valid() && Can(Action.ProducerEnds)
      modifies this
      ensures Valid() && View() == Apply(kind, convert, old(View()), Action<P>.ProducerEnds)
    {
      KeepsValid(Action<P>.ProducerEnds);
      producer := Returned;
    }

    /** The producer's deferred close. */
    method CloseEvents()
      requires Valid() && Can(Action.CloseEvents)
      modifies this, eventsChan
      ensures Valid() && View() == Apply(kind, convert, old(View()), Action<P>.CloseEvents)
      ensures eventsChan.closes == 1
    {
      KeepsValid(Action<P>.CloseEvents);
      var closed := eventsChan.Close();
      producer, producerPanicked := Done, producerPanicked || !closed;
    }

    method ConverterReceive()
      requires Valid() && Can(Action.ConverterReceive)
      modifies this, serviceChan
      ensures Valid() && View() == Apply(kind, convert, old(View()), Action<P>.ConverterReceive)
    {
      KeepsValid(Action<P>.ConverterReceive);
      var event := serviceChan.Receive();
      converter := Converted(convert(event));
    }

    /** The select's send branch. */
    method ConverterSend()
      requires Valid() && Can(Action.ConverterSend)
      modifies this, eventsChan
      ensures Valid() && View() == Apply(kind, convert, old(View()), Action<P>.ConverterSend)
    {
      KeepsValid(Action<P>.ConverterSend);
      var sent := eventsChan.Send(converter.event);
      if sent {
        converter := Ranging;
      } else {
        converterDropped := [converter.event];
        converter, converterPanicked := Leaving, true;
      }
    }

    /** The select's Done branch. */
    method ConverterCancelled()
      requires Valid() && Can(Action.ConverterCancelled)
      modifies this
      ensures Valid() && View() == Apply(kind, convert, old(View()), Action<P>.ConverterCancelled)
    {
      KeepsValid(Action<P>.ConverterCancelled);
      converterDropped := [converter.event];
      converter := Leaving;
    }

    /** The converter's deferred close. */
    method CloseService()
      requires Valid() && Can(Action.CloseService)
      modifies this, serviceChan
      ensures Valid() && View() == Apply(kind, convert, old(View()), Action<P>.CloseService)
      ensures serviceChan.closes == 1
    {
      KeepsValid(Action<P>.CloseService);
      var closed := serviceChan.Close();
      converter, converterPanicked := Gone, converterPanicked || !closed;
    }

    method Consume() returns (event: G)
      requires Valid() && Can(Action.Consume)
      modifies this, eventsChan
      ensures Valid() && View() == Apply(kind, convert, old(View()), Action<P>.Consume)
      ensures output == old(output) + [event] && output <= Map(convert, taken)
    {
      KeepsValid(Action<P>.Consume);
      ghost var s' := Apply(kind, convert, View(), Action<P>.Consume);
      ConservedIsPrefix(convert, s');
      event := eventsChan.Receive();
      output := output + [event];
      assert View() == s';
    }

    lemma KeepsValid(a: Action<P>)
      requires Valid() && Can(a)
      ensures var s' := Apply(kind, convert, View(), a); Disciplined(kind, s') && Conserved(convert, s')
    {
      DisciplinedStep(kind, convert, View(), a);
      ConservedStep(kind, convert, View(), a);
    }
  }
}

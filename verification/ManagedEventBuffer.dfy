/**
  Bounded observation of a managed stream: a pump fills a queue as soon as the stream is
  opened, and one consumer drains it later. Both touch the same fields between awaits.
 */
module ManagedEventBuffers {
  import opened Wrappers

  // What the stream, or the bound, ended observation with. A thrown value can be falsy.
  datatype Failure = Exceeded | FromStream(reason: string, falsy: bool)

  predicate Falsy(f: Failure) {
    f.FromStream? && f.falsy
  }

  datatype Ending = Returned | Threw(failure: Failure)

  datatype Polled<T> = Yielded(event: T) | Slept | Ended(ending: Ending)

  // The shared variables, with what the stream has produced and the consumer has received.
  datatype Buffer<T> = Buffer(
    queue: seq<T>, bytes: int, done: bool, error: Option<Failure>, asleep: bool, ending: Option<Ending>,
    source: seq<T>, delivered: seq<T>)

  type Sizer<!T> = T -> nat

  function Bytes<T>(size: Sizer<T>, s: seq<T>): nat {
    if s == [] then 0 else Bytes(size, s[..|s| - 1]) + size(s[|s| - 1])
  }

  // ---- Steps -------------------------------------------------------------------------

  function Fresh<T>(): Buffer<T> {
    Buffer([], 0, false, None, false, None, [], [])
  }

  function Failing<T>(b: Buffer<T>, failure: Failure): Buffer<T> {
    b.(error := Some(failure), done := true, asleep := false)
  }

  // The pump gets an event: counted first, refused when over the bound.
  function Receiving<T>(size: Sizer<T>, maxBytes: nat, b: Buffer<T>, event: T): Buffer<T> {
    var counted := b.(bytes := b.bytes + size(event), source := b.source + [event]);
    if counted.bytes > maxBytes then Failing(counted, Exceeded)
    else counted.(queue := b.queue + [event], asleep := false)
  }

  function Closing<T>(b: Buffer<T>): Buffer<T> {
    b.(done := true, asleep := false)
  }

  // One turn of the consumer's loop.
  function PollResult<T>(b: Buffer<T>): Polled<T> {
    if b.queue != [] then Yielded(b.queue[0])
    else if !b.done then Slept
    else if b.error.Some? && !Falsy(b.error.value) then Ended(Threw(b.error.value))
    else Ended(Returned)
  }

  function Polling<T>(size: Sizer<T>, b: Buffer<T>): Buffer<T> {
    match PollResult(b)
    case Yielded(event) => b.(queue := b.queue[1..], bytes := b.bytes - size(event), delivered := b.delivered + [event])
    case Slept => b.(asleep := true)
    case Ended(ending) => b.(ending := Some(ending))
  }

  datatype Step<T> = Receive(event: T) | StreamEnds | StreamFails(failure: Failure) | Poll

  // The pump stops for good once done; the consumer does not run while asleep or ended.
  predicate Enabled<T>(b: Buffer<T>, step: Step<T>) {
    match step
    case Receive(_) => !b.done
    case StreamEnds => !b.done
    case StreamFails(failure) => !b.done && failure.FromStream?
    case Poll => !b.asleep && b.ending.None?
  }

  function Next<T>(size: Sizer<T>, maxBytes: nat, b: Buffer<T>, step: Step<T>): Buffer<T> {
    match step
    case Receive(event) => Receiving(size, maxBytes, b, event)
    case StreamEnds => Closing(b)
    case StreamFails(failure) => Failing(b, failure)
    case Poll => Polling(size, b)
  }

  // ---- What every interleaving keeps -------------------------------------------------

  // The event that broke the bound: produced last, counted, never queued.
  function Refused<T>(b: Buffer<T>): seq<T> {
    if b.error == Some(Exceeded) && b.source != [] then [b.source[|b.source| - 1]] else []
  }

  ghost predicate Sound<T>(size: Sizer<T>, maxBytes: nat, b: Buffer<T>) {
    && b.source == b.delivered + b.queue + Refused(b)
    && b.bytes == Bytes(size, b.queue + Refused(b))
    && Bytes(size, b.queue) <= maxBytes
    && (b.error.Some? ==> b.done)
    && (b.error == Some(Exceeded) ==> b.source != [])
    && (b.asleep ==> b.queue == [] && !b.done && b.ending.None?)
    && (b.ending.Some? ==> b.queue == [] && b.done && PollResult(b) == Ended(b.ending.value))
  }

  lemma {:induction false} BytesConcat<T>(size: Sizer<T>, s: seq<T>, t: seq<T>)
    ensures Bytes(size, s + t) == Bytes(size, s) + Bytes(size, t)
  {
    if t == [] {
      assert s + t == s;
    } else {
      assert (s + t)[..|s + t| - 1] == s + t[..|t| - 1];
      BytesConcat(size, s, t[..|t| - 1]);
    }
  }

  lemma FreshIsSound<T>(size: Sizer<T>, maxBytes: nat)
    ensures Sound(size, maxBytes, Fresh<T>())
  {
  }

  lemma ReceivingIsSound<T>(size: Sizer<T>, maxBytes: nat, b: Buffer<T>, event: T)
    requires Sound(size, maxBytes, b) && !b.done
    ensures Sound(size, maxBytes, Receiving(size, maxBytes, b, event))
  {
    var b' := Receiving(size, maxBytes, b, event);
    assert b.queue + [] == b.queue && b'.queue + [] == b'.queue;
    assert b.delivered + b.queue + [] == b.delivered + b.queue;
    assert (b.queue + [event])[..|b.queue|] == b.queue;
    assert b'.source == b'.delivered + b'.queue + Refused(b');
  }

  lemma PollingIsSound<T>(size: Sizer<T>, maxBytes: nat, b: Buffer<T>)
    requires Sound(size, maxBytes, b) && Enabled(b, Poll)
    ensures Sound(size, maxBytes, Polling(size, b))
  {
    hide Bytes;
    if b.queue != [] {
      var b' := Polling(size, b);
      assert b.queue == [b.queue[0]] + b.queue[1..];
      assert b.queue + Refused(b) == [b.queue[0]] + (b.queue[1..] + Refused(b));
      BytesOfFirst(size, b.queue[0], b.queue[1..] + Refused(b));
      BytesOfFirst(size, b.queue[0], b.queue[1..]);
      assert b'.source == b'.delivered + b'.queue + Refused(b');
    }
  }

  lemma BytesOfFirst<T>(size: Sizer<T>, x: T, rest: seq<T>)
    ensures Bytes(size, [x] + rest) == size(x) + Bytes(size, rest)
  {
    BytesConcat(size, [x], rest);
    assert [x][..0] == [];
  }

  lemma StepIsSound<T>(size: Sizer<T>, maxBytes: nat, b: Buffer<T>, step: Step<T>)
    requires Sound(size, maxBytes, b) && Enabled(b, step)
    ensures Sound(size, maxBytes, Next(size, maxBytes, b, step))
  {
    match step
    case Receive(event) => ReceivingIsSound(size, maxBytes, b, event);
    case Poll => PollingIsSound(size, maxBytes, b);
    case _ =>
  }

  ghost predicate Behavior<T(!new)>(size: Sizer<T>, maxBytes: nat, states: seq<Buffer<T>>, steps: seq<Step<T>>) {
    && |states| == |steps| + 1
    && states[0] == Fresh()
    && forall i :: 0 <= i < |steps| ==> Enabled(states[i], steps[i]) && states[i + 1] == Next(size, maxBytes, states[i], steps[i])
  }

  lemma {:induction false} EveryStateIsSound<T(!new)>(size: Sizer<T>, maxBytes: nat, states: seq<Buffer<T>>, steps: seq<Step<T>>, i: nat)
    requires Behavior(size, maxBytes, states, steps) && i < |states|
    ensures Sound(size, maxBytes, states[i])
  {
    hide Sound, Enabled, Next;
    if i == 0 {
      FreshIsSound(size, maxBytes);
    } else {
      EveryStateIsSound(size, maxBytes, states, steps, i - 1);
      StepIsSound(size, maxBytes, states[i - 1], steps[i - 1]);
    }
  }

  // ---- Main results ------------------------------------------------------------------

  // In order and without loss: what was delivered and what is queued is what the stream
  // produced, up to the one event that broke the bound; the queue keeps to the bound.
  lemma ObservationIsFifo<T(!new)>(size: Sizer<T>, maxBytes: nat, states: seq<Buffer<T>>, steps: seq<Step<T>>, i: nat)
    requires Behavior(size, maxBytes, states, steps) && i < |states|
    ensures states[i].delivered + states[i].queue <= states[i].source
    ensures states[i].error != Some(Exceeded) ==> states[i].delivered + states[i].queue == states[i].source
    ensures states[i].error == Some(Exceeded) ==> |states[i].delivered + states[i].queue| + 1 == |states[i].source|
    ensures Bytes(size, states[i].queue) <= maxBytes
  {
    hide Behavior, Bytes;
    EveryStateIsSound(size, maxBytes, states, steps, i);
  }

  // The bound is reported exactly when the event it refused really did not fit beside the queue.
  lemma ExceededIsJustified<T(!new)>(size: Sizer<T>, maxBytes: nat, states: seq<Buffer<T>>, steps: seq<Step<T>>, i: nat, event: T)
    requires Behavior(size, maxBytes, states, steps) && i < |steps| && steps[i] == Receive(event)
    ensures states[i + 1].error == Some(Exceeded) <==> Bytes(size, states[i].queue) + size(event) > maxBytes
  {
    EveryStateIsSound(size, maxBytes, states, steps, i);
    hide Bytes;
    assert states[i].queue + [] == states[i].queue;
  }

  // A failure surfaces only after everything queued was delivered, and the consumer returns
  // normally exactly when there was no failure, or one whose value is falsy.
  lemma EndsAfterDraining<T(!new)>(size: Sizer<T>, maxBytes: nat, states: seq<Buffer<T>>, steps: seq<Step<T>>, i: nat)
    requires Behavior(size, maxBytes, states, steps) && i < |states| && states[i].ending.Some?
    ensures states[i].done && states[i].source == states[i].delivered + Refused(states[i])
    ensures states[i].ending == Some(Returned) <==> states[i].error.None? || Falsy(states[i].error.value)
    ensures states[i].ending.value.Threw? ==> states[i].error == Some(states[i].ending.value.failure)
    ensures states[i].ending == Some(Returned) ==> states[i].delivered == states[i].source
  {
    hide Behavior, Bytes;
    EveryStateIsSound(size, maxBytes, states, steps, i);
    assert states[i].delivered + [] == states[i].delivered;
  }

  // No lost wake-up: the consumer sleeps only while there is neither an item nor the end, and
  // whatever the pump does next wakes it.
  lemma NeverAsleepOverNews<T(!new)>(size: Sizer<T>, maxBytes: nat, states: seq<Buffer<T>>, steps: seq<Step<T>>, i: nat)
    requires Behavior(size, maxBytes, states, steps) && i < |states|
    ensures states[i].queue != [] || states[i].done ==> !states[i].asleep
    ensures i < |steps| && states[i].asleep ==> !states[i + 1].asleep && Enabled(states[i + 1], Poll)
  {
    EveryStateIsSound(size, maxBytes, states, steps, i);
    hide Bytes;
  }

  // Once the stream is over, the consumer needs one turn for each queued event and one to end.
  lemma {:induction false} DrainsInBoundedTurns<T(!new)>(size: Sizer<T>, b: Buffer<T>) returns (drained: Buffer<T>)
    requires b.done && !b.asleep && b.ending.None?
    ensures drained == Turns(size, b, |b.queue| + 1)
    ensures drained.ending.Some? && drained.delivered == b.delivered + b.queue
    decreases |b.queue|
  {
    if b.queue == [] {
      drained := Polling(size, b);
      assert b.delivered + [] == b.delivered;
      assert Turns(size, drained, 0) == drained;
    } else {
      drained := DrainsInBoundedTurns(size, Polling(size, b));
      assert b.delivered + b.queue == b.delivered + [b.queue[0]] + b.queue[1..];
    }
  }

  function Turns<T>(size: Sizer<T>, b: Buffer<T>, n: nat): Buffer<T>
    decreases n
  {
    if n == 0 then b else Turns(size, Polling(size, b), n - 1)
  }

  // ---- The shared object -------------------------------------------------------------

  class ManagedEventBuffer<T> {
    const size: Sizer<T>
    const maxBytes: nat
    var queue: seq<T>
    var bytes: int
    var done: bool
    var error: Option<Failure>
    var aborted: bool
    // A consumer awaiting `wake`.
    var asleep: bool
    ghost var ending: Option<Ending>
    ghost var source: seq<T>
    ghost var delivered: seq<T>

    ghost function State(): Buffer<T>
      reads this
    {
      Buffer(queue, bytes, done, error, asleep, ending, source, delivered)
    }

    ghost predicate Valid()
      reads this
    {
      Sound(size, maxBytes, State()) && (error.Some? || ending.Some? ==> aborted)
    }

    constructor (size: Sizer<T>, maxBytes: nat)
      ensures Valid() && State() == Fresh() && !aborted
      ensures this.size == size && this.maxBytes == maxBytes
    {
      this.size := size;
      this.maxBytes := maxBytes;
      queue, bytes, done, error, aborted, asleep := [], 0, false, None, false, false;
      ending, source, delivered := None, [], [];
    }

    // The body of the pump's loop.
    method Receive(event: T)
      requires Valid() && Enabled(State(), Step.Receive(event))
      modifies this
      ensures Valid() && State() == Receiving(size, maxBytes, old(State()), event)
      ensures aborted == (old(aborted) || bytes > maxBytes)
      ensures bytes == old(bytes) + size(event) && !asleep && delivered == old(delivered)
      ensures if bytes > maxBytes then error == Some(Exceeded) && done && queue == old(queue)
              else error == old(error) && !done && queue == old(queue) + [event]
    {
      hide Sound, Bytes;
      ReceivingIsSound(size, maxBytes, State(), event);
      source := source + [event];
      bytes := bytes + size(event);
      if bytes > maxBytes {
        error := Some(Exceeded);
        aborted := true;
        done := true;
        asleep := false;
        return;
      }
      queue := queue + [event];
      asleep := false;
    }

    // The stream ends, or fails: the pump's catch and finally blocks.
    method Finish(failure: Option<Failure>)
      requires Valid() && !done && (failure.Some? ==> failure.value.FromStream?)
      modifies this
      ensures Valid()
      ensures State() == if failure.Some? then Failing(old(State()), failure.value) else Closing(old(State()))
      ensures aborted == (old(aborted) || failure.Some?)
      ensures done && !asleep && queue == old(queue) && delivered == old(delivered)
      ensures error == if failure.Some? then failure else old(error)
    {
      if failure.Some? {
        error := failure;
        aborted := true;
      }
      done := true;
      asleep := false;
    }

    // The consumer runs until it yields, sleeps or ends.
    method Poll() returns (result: Polled<T>)
      requires Valid() && Enabled(State(), Step.Poll)
      modifies this
      ensures Valid() && State() == Polling(size, old(State()))
      ensures result == PollResult(old(State()))
      ensures aborted == (old(aborted) || result.Ended?)
      ensures old(queue) != [] ==>
                result == Yielded(old(queue)[0]) && queue == old(queue)[1..] && delivered == old(delivered) + [old(queue)[0]]
      ensures old(queue) == [] ==> queue == [] && delivered == old(delivered)
      ensures old(queue) == [] && !old(done) ==> result == Slept && asleep
      ensures old(queue) == [] && old(done) ==>
                result == Ended(if old(error).Some? && !(old(error).value.FromStream? && old(error).value.falsy)
                                then Threw(old(error).value) else Returned)
    {
      hide Sound, Bytes;
      PollingIsSound(size, maxBytes, State());
      if !done || |queue| > 0 {
        if |queue| > 0 {
          var event := queue[0];
          queue := queue[1..];
          bytes := bytes - size(event);
          delivered := delivered + [event];
          result := Yielded(event);
        } else {
          // Registering the wake-up resolves it at once if there is news.
          asleep := !(done || |queue| > 0);
          result := Slept;
        }
      } else {
        aborted := true;
        result := Ended(if error.Some? && !Falsy(error.value) then Threw(error.value) else Returned);
        ending := Some(result.ending);
      }
    }
  }
}

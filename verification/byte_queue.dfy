/**
 The holder's byte-bounded queue: one producer, one consumer thread, an unbounded channel
 beside an atomic byte counter.

 `Queue` is the shared state together with where each side stands between its atomic steps,
 and `Step` lists those steps, so a sequence of steps is one interleaving of both sides. The
 history fields (`accepted`, `fates`, `consumed`, `cleared`, `overtaken`) record what happened and
 guide no step.
 */
module ByteQueues {
  import opened Sieve

  datatype Item<T> = Item(value: T, bytes: nat)

  /** Where the producer stands between two of its atomic steps. */
  datatype Producer<T> =
    | Idle
    | Loaded(item: Item<T>, seen: int)
    | Reserved(item: Item<T>)
    | Clearing(discarded: nat)
    | Freeing(item: Item<T>, discarded: nat)
    | Released

  /** Where the consumer stands: `Holding` has received an item and not yet released its bytes. */
  datatype Consumer<T> = Waiting | Holding(item: Item<T>) | Gone

  datatype Queue<T> = Queue(
    cap: nat,
    counter: int,
    channel: seq<Item<T>>,
    producer: Producer<T>,
    consumer: Consumer<T>,
    accepted: seq<Item<T>>,
    fates: seq<bool>,
    consumed: seq<Item<T>>,
    cleared: seq<Item<T>>,
    overtaken: bool)

  datatype Step<T> =
    // try_push: read the counter, then refuse or reserve, then send
    | Load(item: Item<T>) | Refuse | Reserve
    // force_push: reserve at once, then send
    | ForceReserve(item: Item<T>)
    | Send
    // clear: take items off the channel one by one, freeing each one's bytes
    | BeginClear | Discard | Free | EndClear
    // the queue is dropped
    | Release
    // consumer
    | Receive | Credit | Leave

  function Empty<T>(cap: nat): Queue<T> {
    Queue(cap, 0, [], Idle, Waiting, [], [], [], [], false)
  }

  /** Whether `try_push` refuses an item of `bytes` having read `seen` queued bytes. */
  predicate Full(cap: nat, seen: int, bytes: nat) {
    seen != 0 && seen + bytes > cap
  }

  /** How many receivers the channel still has: the queue's own while it lives, and the consumer's. */
  function Receivers<T>(q: Queue<T>): nat {
    (if q.producer.Released? then 0 else 1) + (if q.consumer.Gone? then 0 else 1)
  }

  predicate Enabled<T>(q: Queue<T>, step: Step<T>) {
    match step
    case Load(_) => q.producer.Idle?
    case Refuse => q.producer.Loaded? && Full(q.cap, q.producer.seen, q.producer.item.bytes)
    case Reserve => q.producer.Loaded? && !Full(q.cap, q.producer.seen, q.producer.item.bytes)
    case ForceReserve(_) => q.producer.Idle?
    case Send => q.producer.Reserved?
    case BeginClear => q.producer.Idle?
    case Discard => q.producer.Clearing? && q.channel != []
    case Free => q.producer.Freeing?
    case EndClear => q.producer.Clearing? && q.channel == []
    case Release => q.producer.Idle?
    case Receive => q.consumer.Waiting? && q.channel != []
    case Credit => q.consumer.Holding?
    case Leave => q.consumer.Waiting?
  }

  function Apply<T>(q: Queue<T>, step: Step<T>): Queue<T>
    requires Enabled(q, step)
  {
    match step
    case Load(item) => q.(producer := Loaded(item, q.counter))
    case Refuse => q.(producer := Idle)
    case Reserve =>
      q.(producer := Reserved(q.producer.item), counter := q.counter + q.producer.item.bytes)
    case ForceReserve(item) => q.(producer := Reserved(item), counter := q.counter + item.bytes)
    case Send =>
      if Receivers(q) > 0
      then q.(producer := Idle, channel := q.channel + [q.producer.item],
              accepted := q.accepted + [q.producer.item])
      else q.(producer := Idle, counter := q.counter - q.producer.item.bytes)
    case BeginClear => q.(producer := Clearing(0))
    case Discard =>
      q.(producer := Freeing(q.channel[0], q.producer.discarded + 1), channel := q.channel[1..],
         fates := q.fates + [false], cleared := q.cleared + [q.channel[0]])
    case Free =>
      q.(producer := Clearing(q.producer.discarded), counter := q.counter - q.producer.item.bytes)
    case EndClear => q.(producer := Idle)
    case Release => q.(producer := Released)
    case Receive =>
      q.(consumer := Holding(q.channel[0]), channel := q.channel[1..],
         fates := q.fates + [true], consumed := q.consumed + [q.channel[0]],
         overtaken := q.overtaken || MidClear(q))
    case Credit => q.(consumer := Waiting, counter := q.counter - q.consumer.item.bytes)
    case Leave => q.(consumer := Gone)
  }

  /** Whether a clear under way has already discarded something, so a frame the consumer
      receives now overtakes it. */
  predicate MidClear<T>(q: Queue<T>) {
    (q.producer.Clearing? || q.producer.Freeing?) && q.producer.discarded > 0
  }

  predicate Runs<T>(q: Queue<T>, steps: seq<Step<T>>)
    decreases |steps|
  {
    steps == [] || (Enabled(q, steps[0]) && Runs(Apply(q, steps[0]), steps[1..]))
  }

  function After<T>(q: Queue<T>, steps: seq<Step<T>>): Queue<T>
    requires Runs(q, steps)
    decreases |steps|
  {
    if steps == [] then q else After(Apply(q, steps[0]), steps[1..])
  }

  // ----- the counter -----

  function Weight<T>(items: seq<Item<T>>): nat
    decreases |items|
  {
    if items == [] then 0 else items[0].bytes + Weight(items[1..])
  }

  lemma {:induction false} WeightOfAppend<T>(items: seq<Item<T>>, item: Item<T>)
    ensures Weight(items + [item]) == Weight(items) + item.bytes
    decreases |items|
  {
    if items == [] {
      assert items + [item] == [item];
      assert Weight([item]) == item.bytes + Weight([item][1..]);
    } else {
      WeightOfAppend(items[1..], item);
      assert (items + [item])[1..] == items[1..] + [item];
    }
  }

  lemma {:induction false} WeightOfOne<T>(items: seq<Item<T>>, i: nat)
    requires i < |items|
    ensures items[i].bytes <= Weight(items)
    decreases |items|
  {
    if i > 0 {
      WeightOfOne(items[1..], i - 1);
    }
  }

  /** Bytes the producer has reserved for an item not yet sent, or taken off and not yet freed. */
  function InHand<T>(producer: Producer<T>): nat {
    if producer.Reserved? || producer.Freeing? then producer.item.bytes else 0
  }

  /** Bytes the consumer has received and not yet released. */
  function Uncredited<T>(consumer: Consumer<T>): nat {
    if consumer.Holding? then consumer.item.bytes else 0
  }

  /** What the consumer has received, then what it will receive if nothing is cleared. */
  function Stream<T>(q: Queue<T>): seq<Item<T>> {
    q.consumed + q.channel
  }

  ghost predicate Inv<T>(q: Queue<T>) {
    && q.counter == Weight(q.channel) + InHand(q.producer) + Uncredited(q.consumer)
    && (q.producer.Loaded? ==> q.counter <= q.producer.seen)
    && |q.fates| <= |q.accepted|
    && q.channel == q.accepted[|q.fates|..]
    && q.consumed == Kept(q.accepted[..|q.fates|], q.fates)
    && q.cleared == Dropped(q.accepted[..|q.fates|], q.fates)
  }

  lemma {:induction false} SettleFate<T>(q: Queue<T>, kept: bool)
    requires Inv(q) && q.channel != []
    ensures var fates := q.fates + [kept];
            && q.channel[1..] == q.accepted[|fates|..]
            && Kept(q.accepted[..|fates|], fates) == q.consumed + (if kept then [q.channel[0]] else [])
            && Dropped(q.accepted[..|fates|], fates) == q.cleared + (if kept then [] else [q.channel[0]])
  {
    hide Kept, Dropped, Weight;
    var n := |q.fates|;
    Extend(q.accepted[..n], q.fates, q.accepted[n], kept);
    assert q.accepted[..n] + [q.accepted[n]] == q.accepted[..n + 1];
  }

  lemma {:induction false} StepKeepsInv<T>(q: Queue<T>, step: Step<T>)
    requires Inv(q) && Enabled(q, step)
    ensures Inv(Apply(q, step))
  {
    hide Kept, Dropped;
    match step
    case Send => SendKeepsInv(q);
    case Discard => SettleFate(q, false);
    case Receive => SettleFate(q, true);
    case _ =>
  }

  lemma {:induction false} SendKeepsInv<T>(q: Queue<T>)
    requires Inv(q) && Enabled(q, Send)
    ensures Inv(Apply(q, Send))
  {
    hide Kept, Dropped, Weight;
    if Receivers(q) > 0 {
      WeightOfAppend(q.channel, q.producer.item);
      assert (q.accepted + [q.producer.item])[..|q.fates|] == q.accepted[..|q.fates|];
    }
  }

  lemma {:induction false} RunKeepsInv<T>(q: Queue<T>, steps: seq<Step<T>>)
    requires Inv(q) && Runs(q, steps)
    ensures Inv(After(q, steps))
    decreases |steps|
  {
    if steps != [] {
      StepKeepsInv(q, steps[0]);
      RunKeepsInv(Apply(q, steps[0]), steps[1..]);
    }
  }

  /** Under every interleaving the counter is exactly the bytes in the channel, reserved, and
      taken but unreleased, so no `fetch_sub` ever takes it below zero. */
  lemma {:induction false} CounterIsExact<T>(cap: nat, steps: seq<Step<T>>)
    requires Runs(Empty(cap), steps)
    ensures var q := After(Empty(cap), steps);
            && q.counter == Weight(q.channel) + InHand(q.producer) + Uncredited(q.consumer)
            && forall step :: Enabled(q, step) ==> Apply(q, step).counter >= 0
  {
    var q := After(Empty(cap), steps);
    RunKeepsInv(Empty(cap), steps);
    forall step | Enabled(q, step) ensures Apply(q, step).counter >= 0 {
      StepKeepsInv(q, step);
    }
  }

  /** Under every interleaving the queue is a FIFO that some items are cleared out of: each
      accepted item is consumed once, cleared once or still queued, and each of the three keeps
      push order. */
  lemma {:induction false} QueueIsFifo<T>(cap: nat, steps: seq<Step<T>>)
    requires Runs(Empty(cap), steps)
    ensures var q := After(Empty(cap), steps);
            && |q.fates| <= |q.accepted|
            && q.channel == q.accepted[|q.fates|..]
            && q.consumed == Kept(q.accepted[..|q.fates|], q.fates)
            && q.cleared == Dropped(q.accepted[..|q.fates|], q.fates)
            && multiset(q.accepted) == multiset(q.consumed) + multiset(q.cleared) + multiset(q.channel)
  {
    var q := After(Empty(cap), steps);
    RunKeepsInv(Empty(cap), steps);
    Conserves(q.accepted[..|q.fates|], q.fates);
    assert q.accepted == q.accepted[..|q.fates|] + q.channel;
  }

  /** A live queue holds a receiver of its own, so a reserved item is always sent, whatever
      became of the consumer: a push fails only by being refused. */
  lemma {:induction false} SendNeverFails<T>(q: Queue<T>)
    requires Enabled(q, Send)
    ensures Apply(q, Send).channel == q.channel + [q.producer.item]
    ensures Apply(q, Send).counter == q.counter
  {
    assert Receivers(q) > 0;
  }

  // ----- the cap -----

  predicate Forced<T>(steps: seq<Step<T>>) {
    exists i :: 0 <= i < |steps| && steps[i].ForceReserve?
  }

  /** One outstanding item weighs all the counter holds. */
  ghost predicate Alone<T>(q: Queue<T>) {
    || ((q.producer.Reserved? || q.producer.Freeing?) && q.producer.item.bytes == q.counter)
    || (q.consumer.Holding? && q.consumer.item.bytes == q.counter)
    || exists i :: 0 <= i < |q.channel| && q.channel[i].bytes == q.counter
  }

  ghost predicate Bounded<T>(q: Queue<T>) {
    q.counter <= q.cap || Alone(q)
  }

  lemma {:induction false} StepKeepsBound<T>(q: Queue<T>, step: Step<T>)
    requires Inv(q) && Bounded(q) && Enabled(q, step) && !step.ForceReserve?
    ensures Bounded(Apply(q, step))
  {
    hide Kept, Dropped;
    if q.counter > q.cap && exists i :: 0 <= i < |q.channel| && q.channel[i].bytes == q.counter {
      var i :| 0 <= i < |q.channel| && q.channel[i].bytes == q.counter;
      AloneInChannel(q, step, i);
    } else if step.Send? {
      assert Apply(q, step).channel[|q.channel|] == q.producer.item;
    }
  }

  lemma {:induction false} AloneInChannel<T>(q: Queue<T>, step: Step<T>, i: nat)
    requires Inv(q) && Enabled(q, step) && !step.ForceReserve? && q.counter > q.cap
    requires i < |q.channel| && q.channel[i].bytes == q.counter
    ensures Bounded(Apply(q, step))
  {
    hide Kept, Dropped, Weight;
    WeightOfOne(q.channel, i);
    var r := Apply(q, step);
    match step
    case Send => assert r.channel[i] == q.channel[i];
    case Discard => assert i > 0 ==> r.channel[i - 1] == q.channel[i];
    case Receive => assert i > 0 ==> r.channel[i - 1] == q.channel[i];
    case _ =>
  }

  lemma {:induction false} RunKeepsBound<T>(q: Queue<T>, steps: seq<Step<T>>)
    requires Inv(q) && Bounded(q) && Runs(q, steps) && !Forced(steps)
    ensures Bounded(After(q, steps))
    decreases |steps|
  {
    if steps != [] {
      assert !steps[0].ForceReserve?;
      StepKeepsInv(q, steps[0]);
      StepKeepsBound(q, steps[0]);
      RunKeepsBound(Apply(q, steps[0]), steps[1..]);
    }
  }

  /** With `try_push` alone the counter never passes the cap, except by holding the bytes of one
      item that entered an empty queue, and nothing else. */
  lemma {:induction false} TryPushHonoursCap<T>(cap: nat, steps: seq<Step<T>>)
    requires Runs(Empty(cap), steps) && !Forced(steps)
    ensures var q := After(Empty(cap), steps);
            q.counter <= cap || Alone(q)
  {
    RunKeepsBound(Empty(cap), steps);
    CapStays(Empty(cap), steps);
  }

  lemma {:induction false} CapStays<T>(q: Queue<T>, steps: seq<Step<T>>)
    requires Runs(q, steps)
    ensures After(q, steps).cap == q.cap
    decreases |steps|
  {
    if steps != [] {
      CapStays(Apply(q, steps[0]), steps[1..]);
    }
  }

  // ----- a refused push -----

  predicate ConsumerOnly<T>(steps: seq<Step<T>>) {
    forall i :: 0 <= i < |steps| ==> steps[i].Receive? || steps[i].Credit? || steps[i].Leave?
  }

  lemma {:induction false} RunsOfConcat<T>(q: Queue<T>, first: seq<Step<T>>, second: seq<Step<T>>)
    requires Runs(q, first) && Runs(After(q, first), second)
    ensures Runs(q, first + second) && After(q, first + second) == After(After(q, first), second)
    decreases |first|
  {
    if first == [] {
      assert first + second == second;
    } else {
      RunsOfConcat(Apply(q, first[0]), first[1..], second);
      assert (first + second)[1..] == first[1..] + second;
    }
  }

  /** Consumer steps do not see whether the producer has read the counter. */
  lemma {:induction false} ConsumerIgnoresLoad<T>(q: Queue<T>, item: Item<T>, seen: int, steps: seq<Step<T>>)
    requires q.producer.Idle? && Runs(q, steps) && ConsumerOnly(steps)
    ensures var loaded := q.(producer := Loaded(item, seen));
            Runs(loaded, steps) && After(loaded, steps) == After(q, steps).(producer := Loaded(item, seen))
    ensures After(q, steps).producer.Idle? && After(q, steps).cap == q.cap
    decreases |steps|
  {
    if steps != [] {
      var step := steps[0];
      assert step.Receive? || step.Credit? || step.Leave?;
      assert Apply(q.(producer := Loaded(item, seen)), step)
          == Apply(q, step).(producer := Loaded(item, seen));
      ConsumerIgnoresLoad(Apply(q, step), item, seen, steps[1..]);
    }
  }

  /** A refused push leaves no trace: whatever the consumer does meanwhile, the queue ends as if
      the push had never been tried. */
  lemma {:induction false} RefusedPushChangesNothing<T>(q: Queue<T>, item: Item<T>, steps: seq<Step<T>>)
    requires q.producer.Idle? && Runs(q, steps) && ConsumerOnly(steps)
    requires q.counter != 0 && q.counter + item.bytes > q.cap
    ensures var push := [Load(item)] + steps + [Refuse];
            Runs(q, push) && After(q, push) == After(q, steps)
  {
    ConsumerIgnoresLoad(q, item, q.counter, steps);
    var loaded := Apply(q, Load(item));
    var last := After(loaded, steps);
    assert Runs(last, [Refuse]) && After(last, [Refuse]) == Apply(last, Refuse);
    RunsOfConcat(loaded, steps, [Refuse]);
    var push := [Load(item)] + steps + [Refuse];
    assert push[1..] == steps + [Refuse];
    assert last.(producer := Idle) == After(q, steps);
  }

  /** Under every interleaving a push is refused exactly when the bytes it read are not zero and with
      its own exceed the cap; and no more bytes are queued than it read. */
  lemma {:induction false} RefusedExactlyWhenOver<T>(cap: nat, steps: seq<Step<T>>)
    requires Runs(Empty(cap), steps)
    ensures var q := After(Empty(cap), steps);
            q.producer.Loaded? ==>
              && 0 <= q.counter <= q.producer.seen
              && (Enabled(q, Refuse) <==> q.producer.seen > 0 && q.producer.seen + q.producer.item.bytes > cap)
              && (Enabled(q, Reserve) <==> q.producer.seen == 0 || q.producer.seen + q.producer.item.bytes <= cap)
  {
    RunKeepsInv(Empty(cap), steps);
    CapStays(Empty(cap), steps);
  }

  // ----- the queue's methods, with the consumer running between their atomic steps -----

  /** Between calls: the producer is in none. */
  ghost predicate Settled<T>(q: Queue<T>) {
    Inv(q) && q.producer.Idle?
  }

  /** The item is more than there is room for, and not alone. */
  predicate Overfull<T>(q: Queue<T>, item: Item<T>) {
    q.counter > 0 && q.counter + item.bytes > q.cap
  }

  /** From `q` to `r` only the consumer moved. */
  ghost predicate Ran<T>(q: Queue<T>, r: Queue<T>) {
    && r.cap == q.cap && r.accepted == q.accepted && r.cleared == q.cleared && r.producer == q.producer
    && Stream(r) == Stream(q) && q.consumed <= r.consumed && q.fates <= r.fates
    && r.counter <= q.counter
    && r.overtaken == (q.overtaken || (MidClear(q) && r.consumed != q.consumed))
  }

  /** From `q` to `r` `item` joined the stream, and otherwise only the consumer moved. */
  ghost predicate Pushed<T>(q: Queue<T>, r: Queue<T>, item: Item<T>) {
    && r.cap == q.cap && r.accepted == q.accepted + [item] && r.cleared == q.cleared
    && Stream(r) == Stream(q) + [item] && q.consumed <= r.consumed && q.fates <= r.fates
    && r.overtaken == q.overtaken
  }

  /** From `q` to `r` the channel was emptied: the mask says which of its items the consumer
      still received, and `out` are the others. Unless the consumer overtook the clear, it
      received none behind a cleared one. */
  ghost predicate Emptied<T>(q: Queue<T>, r: Queue<T>, mask: seq<bool>, out: seq<Item<T>>) {
    && r.cap == q.cap && r.accepted == q.accepted && r.channel == []
    && q.fates + mask == r.fates && |mask| == |q.channel|
    && r.consumed == q.consumed + Kept(q.channel, mask)
    && out == Dropped(q.channel, mask)
    && r.cleared == q.cleared + out
    && (q.overtaken ==> r.overtaken)
    && (!r.overtaken ==> q.channel == Kept(q.channel, mask) + out)
  }

  /** What is left of a clear: the consumer and the clear between them took the front of the
      channel, each in order. */
  lemma {:induction false} ClearProgress<T>(q: Queue<T>, r: Queue<T>)
    requires Inv(q) && Inv(r) && r.accepted == q.accepted && q.fates <= r.fates
    ensures var done := |r.fates| - |q.fates|; var mask := r.fates[|q.fates|..];
            && done <= |q.channel| && r.channel == q.channel[done..]
            && r.consumed == q.consumed + Kept(q.channel[..done], mask)
            && r.cleared == q.cleared + Dropped(q.channel[..done], mask)
  {
    hide Kept, Dropped, Weight;
    var n, done := |q.fates|, |r.fates| - |q.fates|;
    Concat(q.accepted[..n], q.fates, q.channel[..done], r.fates[n..]);
    assert q.accepted[..n] + q.channel[..done] == q.accepted[..n + done];
    assert q.fates + r.fates[n..] == r.fates;
  }

  class ByteQueue<T> {
    var state: Queue<T>

    constructor (cap: nat)
      ensures Settled(state) && state == Empty(cap)
    {
      state := Empty(cap);
    }

    constructor Of(q: Queue<T>)
      ensures state == q
    {
      state := q;
    }

    /** The consumer's thread runs for a while: any number of its steps, in any order they are
        enabled in. */
    method ConsumerRuns()
      requires Inv(state)
      modifies this
      ensures Inv(state) && Ran(old(state), state)
    {
      var n: nat := *;
      while n > 0
        invariant Inv(state) && Ran(old(state), state)
      {
        var step: Step<T> := *;
        if (step.Receive? || step.Credit? || step.Leave?) && Enabled(state, step) {
          StepKeepsInv(state, step);
          ConsumerStepRuns(old(state), state, step);
          state := Apply(state, step);
        }
        n := n - 1;
      }
    }

    /** One atomic step of the producer, and whatever the consumer does before its next. */
    method Take(step: Step<T>)
      requires Inv(state) && Enabled(state, step)
      modifies this
      ensures Inv(state) && Ran(Apply(old(state), step), state)
    {
      StepKeepsInv(state, step);
      state := Apply(state, step);
      ConsumerRuns();
    }

    /** The item joins the stream, or is refused and only the consumer has moved. */
    method TryPush(item: Item<T>) returns (ok: bool)
      requires Settled(state)
      modifies this
      ensures Settled(state)
      ensures if ok then Pushed(old(state), state, item) else Ran(old(state), state)
      ensures old(state).counter == 0 || old(state).counter + item.bytes <= state.cap ==> ok
      ensures !ok ==> old(state).counter > 0 && old(state).counter + item.bytes > state.cap
    {
      ConsumerRuns();
      Take(Load(item));
      if Full(state.cap, state.producer.seen, item.bytes) {
        Take(Refuse);
        return false;
      }
      ok := PushLoaded();
    }

    /** Reserves and sends an item `try_push` found room for. */
    method PushLoaded() returns (ok: bool)
      requires Inv(state) && Enabled(state, Reserve)
      modifies this
      ensures Settled(state) && ok && Pushed(old(state), state, old(state).producer.item)
    {
      Take(Reserve);
      ok := Enqueue();
    }

    /** The item joins the stream, whatever the counter says. */
    method ForcePush(item: Item<T>) returns (ok: bool)
      requires Settled(state)
      modifies this
      ensures Settled(state) && ok && Pushed(old(state), state, item)
    {
      ConsumerRuns();
      Take(ForceReserve(item));
      ok := Enqueue();
    }

    /** Sends the reserved item, which a queue holding its own receiver always can. */
    method Enqueue() returns (ok: bool)
      requires Inv(state) && state.producer.Reserved?
      modifies this
      ensures Settled(state) && ok && Pushed(old(state), state, old(state).producer.item)
    {
      SendNeverFails(state);
      ok := Receivers(state) > 0;
      Take(Send);
    }

    /** Discards everything the consumer has not received by the time the clear reaches it, and
        returns it, oldest first. */
    method Clear() returns (out: seq<Item<T>>, ghost mask: seq<bool>)
      requires Settled(state)
      modifies this
      ensures Settled(state) && Emptied(old(state), state, mask, out)
    {
      hide Inv, ClearsFrom, Emptied, Ran;
      ghost var was := state;
      out := [];
      Take(BeginClear);
      ClearBegun(was, state);
      while state.channel != []
        invariant Inv(state) && ClearsFrom(was, state, out)
        decreases |state.channel|
      {
        out := DiscardOne(was, out);
      }
      mask := ClearDone(was, state, out);
      state := Apply(state, EndClear);
    }

    method DiscardOne(ghost was: Queue<T>, out: seq<Item<T>>) returns (more: seq<Item<T>>)
      requires Inv(state) && ClearsFrom(was, state, out) && state.channel != []
      modifies this
      ensures Inv(state) && ClearsFrom(was, state, more)
      ensures |state.channel| < old(|state.channel|)
    {
      ghost var before := state;
      more := out + [state.channel[0]];
      Take(Discard);
      ghost var between := state;
      Take(Free);
      ClearStep(was, before, between, state, more);
    }
  }

  /** A clear begun on `was` has come to `q` having discarded `out`. */
  ghost predicate ClearsFrom<T>(was: Queue<T>, q: Queue<T>, out: seq<Item<T>>) {
    && q.producer == Clearing(|out|)
    && q.cap == was.cap && q.accepted == was.accepted && was.fates <= q.fates
    && q.cleared == was.cleared + out
    && (was.overtaken ==> q.overtaken)
    && (!q.overtaken ==> Stream(was) == q.consumed + out + q.channel)
  }

  lemma {:induction false} ConsumerStepRuns<T>(q: Queue<T>, r: Queue<T>, step: Step<T>)
    requires Inv(r) && Ran(q, r) && Enabled(r, step) && (step.Receive? || step.Credit? || step.Leave?)
    ensures Ran(q, Apply(r, step))
  {
    if step.Receive? {
      assert r.consumed + [r.channel[0]] + r.channel[1..] == Stream(r);
    }
  }

  /** Clearing one item: the consumer may take more meanwhile, but then it has overtaken. */
  lemma {:induction false} ClearStep<T>(was: Queue<T>, before: Queue<T>, between: Queue<T>, after: Queue<T>,
          out: seq<Item<T>>)
    requires out != [] && before.channel != [] && out[|out| - 1] == before.channel[0]
    requires ClearsFrom(was, before, out[..|out| - 1])
    requires Ran(Apply(before, Discard), between)
    requires between.producer.Freeing? && Ran(Apply(between, Free), after)
    ensures ClearsFrom(was, after, out)
    ensures |after.channel| < |before.channel|
  {
    var rest := before.channel[1..];
    assert |after.consumed| >= |before.consumed|;
    assert Stream(after) == before.consumed + rest;
    assert |after.channel| <= |rest|;
    if !after.overtaken {
      assert after.consumed == between.consumed == before.consumed;
      assert after.channel == rest by {
        assert after.channel == Stream(after)[|after.consumed|..];
      }
      assert out + rest == out[..|out| - 1] + before.channel;
    }
  }

  lemma {:induction false} ClearBegun<T>(was: Queue<T>, q: Queue<T>)
    requires was.producer.Idle? && Ran(Apply(was, BeginClear), q)
    ensures ClearsFrom(was, q, [])
  {
    assert q.consumed + [] + q.channel == Stream(q);
  }

  lemma {:induction false} ClearDone<T>(was: Queue<T>, q: Queue<T>, out: seq<Item<T>>) returns (mask: seq<bool>)
    requires Inv(was) && Inv(q) && ClearsFrom(was, q, out) && q.channel == []
    ensures Enabled(q, EndClear) && Settled(Apply(q, EndClear)) && Emptied(was, Apply(q, EndClear), mask, out)
  {
    hide Kept, Dropped, Weight;
    ClearProgress(was, q);
    mask := q.fates[|was.fates|..];
    assert was.channel[..|mask|] == was.channel;
    assert out == q.cleared[|was.cleared|..] == Dropped(was.channel, mask);
    if !q.overtaken {
      assert was.consumed + was.channel == was.consumed + (Kept(was.channel, mask) + out);
      assert was.channel == Stream(was)[|was.consumed|..];
    }
  }

  // ----- the same calls on a queue's value, as its owner keeps it -----

  method TryPush<T>(q: Queue<T>, item: Item<T>) returns (ok: bool, r: Queue<T>)
    requires Settled(q)
    ensures Settled(r)
    ensures if ok then Pushed(q, r, item) else Ran(q, r)
    ensures q.counter == 0 || q.counter + item.bytes <= q.cap ==> ok
    ensures !ok ==> q.counter > 0 && q.counter + item.bytes > q.cap
  {
    var queue := new ByteQueue<T>.Of(q);
    ok := queue.TryPush(item);
    r := queue.state;
  }

  method ForcePush<T>(q: Queue<T>, item: Item<T>) returns (ok: bool, r: Queue<T>)
    requires Settled(q)
    ensures Settled(r) && ok && Pushed(q, r, item)
  {
    var queue := new ByteQueue<T>.Of(q);
    ok := queue.ForcePush(item);
    r := queue.state;
  }

  method Clear<T>(q: Queue<T>) returns (out: seq<Item<T>>, r: Queue<T>, ghost mask: seq<bool>)
    requires Settled(q)
    ensures Settled(r) && Emptied(q, r, mask, out)
  {
    var queue := new ByteQueue<T>.Of(q);
    out, mask := queue.Clear();
    r := queue.state;
  }

  method ConsumerRuns<T>(q: Queue<T>) returns (r: Queue<T>)
    requires Settled(q)
    ensures Settled(r) && Ran(q, r)
  {
    var queue := new ByteQueue<T>.Of(q);
    queue.ConsumerRuns();
    r := queue.state;
  }
}

/** The single-producer single-consumer ring of decoded blocks. */
module Ring {
  /** The index after `i` in a ring of `n` slots. */
  function Increment(i: nat, n: nat): (j: nat)
    requires i < n
    ensures j < n
  {
    if i + 1 == n then 0 else i + 1
  }

  /** Both sides of the ring compute it as a remainder. */
  lemma IncrementIsRemainder(i: nat, n: nat)
    requires i < n
    ensures Increment(i, n) == (i + 1) % n
  {
    if i + 1 == n { assert (i + 1) % n == 0; }
  }

  /** How many slots lie between the read and the write index. */
  function Count(n: nat, read: nat, write: nat): (c: nat)
    requires read < n && write < n
    ensures c < n
  {
    if read <= write then write - read else write + n - read
  }

  function At(n: nat, read: nat, k: nat): (i: nat)
    requires read < n && k < n
    ensures i < n
  {
    if read + k < n then read + k else read + k - n
  }

  /** The slots from the read index up to the write index, oldest first. */
  function Window<T>(slots: seq<T>, read: nat, write: nat): (w: seq<T>)
    requires read < |slots| && write < |slots|
    ensures |w| == Count(|slots|, read, write)
  {
    seq(Count(|slots|, read, write), k requires 0 <= k < Count(|slots|, read, write) => slots[At(|slots|, read, k)])
  }

  /** The ring is full, with one slot to spare, exactly when writing would catch up with reading. */
  lemma FullIffNextIsRead(n: nat, read: nat, write: nat)
    requires read < n && write < n
    ensures Increment(write, n) == read <==> Count(n, read, write) == n - 1
  {
  }

  /** Storing the write index after filling its slot appends that slot. */
  lemma WindowPush<T>(slots: seq<T>, read: nat, write: nat, x: T)
    requires read < |slots| && write < |slots| && Increment(write, |slots|) != read
    ensures Window(slots[write := x], read, Increment(write, |slots|)) == Window(slots, read, write) + [x]
  {
  }

  /** Storing the read index drops the oldest slot. */
  lemma WindowPop<T>(slots: seq<T>, read: nat, write: nat)
    requires read < |slots| && write < |slots| && read != write
    ensures Window(slots, read, write) == [slots[read]] + Window(slots, Increment(read, |slots|), write)
  {
  }

  /** The producer's slot is outside the window. */
  lemma WindowIgnoresWriteSlot<T>(slots: seq<T>, read: nat, write: nat, x: T)
    requires read < |slots| && write < |slots|
    ensures Window(slots[write := x], read, write) == Window(slots, read, write)
  {
  }
}

module DecodedAudioQueue {
  import opened Ring

  datatype Metadata = Metadata(
    generation: nat, seekSequence: nat, positionMs: int, durationMs: int, endOfStream: bool)

  datatype Item = Item(samples: seq<real>, metadata: Metadata)

  /** One slot: storage of fixed size, of which `sampleCount` samples are in use. */
  datatype Slot = Slot(samples: seq<real>, sampleCount: nat, metadata: Metadata)

  const NO_METADATA := Metadata(0, 0, 0, 0, false)

  function ItemOf(s: Slot): Item
    requires s.sampleCount <= |s.samples|
  {
    Item(s.samples[..s.sampleCount], s.metadata)
  }

  /** What `try_pop` writes to a destination of `size` samples: the item cut or zero-padded to size. */
  function Delivered(samples: seq<real>, size: nat): (d: seq<real>)
    ensures |d| == size
  {
    if |samples| >= size then samples[..size] else samples + seq(size - |samples|, _ => 0.0)
  }

  class AudioQueue {
    const samplesPerSlot: nat
    const slots: array<Slot>
    var read: nat
    var write: nat

    ghost predicate Valid()
      reads this, slots
    {
      && read < slots.Length && write < slots.Length
      && forall i :: 0 <= i < slots.Length ==>
           |slots[i].samples| == samplesPerSlot && slots[i].sampleCount <= samplesPerSlot
    }

    ghost function Capacity(): int { slots.Length - 1 }

    /** The queued items, oldest first. */
    ghost function Contents(): seq<Item>
      reads this, slots
      requires Valid()
    {
      var w := Window(slots[..], read, write);
      seq(|w|, k requires 0 <= k < |w| && w[k].sampleCount <= |w[k].samples| => ItemOf(w[k]))
    }

    constructor (slotCount: nat, samplesPerSlot: nat)
      ensures Valid() && fresh(slots)
      ensures Capacity() == slotCount && this.samplesPerSlot == samplesPerSlot && Contents() == []
    {
      this.samplesPerSlot := samplesPerSlot;
      var silent := seq(samplesPerSlot, _ => 0.0);
      slots := new Slot[slotCount + 1](_ => Slot(silent, 0, NO_METADATA));
      read, write := 0, 0;
    }

    method TryPush(samples: seq<real>, metadata: Metadata) returns (ok: bool)
      requires Valid()
      modifies this`write, slots
      ensures Valid()
      ensures ok == (|old(Contents())| < Capacity() && |samples| <= samplesPerSlot)
      ensures Contents() == if ok then old(Contents()) + [Item(samples, metadata)] else old(Contents())
    {
      FullIffNextIsRead(slots.Length, read, write);
      IncrementIsRemainder(write, slots.Length);
      var next := (write + 1) % slots.Length;
      if next == read || |samples| > |slots[write].samples| {
        return false;
      }
      var stored := Slot(samples + slots[write].samples[|samples|..], |samples|, metadata);
      WindowPush(slots[..], read, write, stored);
      assert ItemOf(stored) == Item(samples, metadata);
      slots[write] := stored;
      write := next;
      assert slots[..] == old(slots[..][write := stored]);
      return true;
    }

    method TryPop(destination: array<real>) returns (ok: bool, metadata: Metadata)
      requires Valid()
      modifies this`read, destination
      ensures Valid()
      ensures ok == (old(Contents()) != [])
      ensures ok ==>
                && Contents() == old(Contents())[1..]
                && metadata == old(Contents())[0].metadata
                && destination[..] == Delivered(old(Contents())[0].samples, destination.Length)
      ensures !ok ==> Contents() == old(Contents()) && destination[..] == old(destination[..])
    {
      if read == write {
        return false, NO_METADATA;
      }
      WindowPop(slots[..], read, write);
      var source := slots[read];
      assert source == slots[..][read];
      var count := if destination.Length < source.sampleCount then destination.Length else source.sampleCount;
      forall i | 0 <= i < count {
        destination[i] := source.samples[i];
      }
      forall i | count <= i < destination.Length {
        destination[i] := 0.0;
      }
      assert old(Contents())[0] == ItemOf(source);
      assert destination[..] == Delivered(ItemOf(source).samples, destination.Length);
      metadata := source.metadata;
      IncrementIsRemainder(read, slots.Length);
      read := (read + 1) % slots.Length;
      ok := true;
    }

    method Full() returns (full: bool)
      requires Valid()
      ensures full == (|Contents()| == Capacity())
    {
      FullIffNextIsRead(slots.Length, read, write);
      IncrementIsRemainder(write, slots.Length);
      full := (write + 1) % slots.Length == read;
    }
  }
}

/**
 The same ring under every interleaving of one producer and one consumer.  Loading an
 index, starting and finishing a slot copy, and storing an index are separate steps; a slot
 whose copy has started but not finished holds `Torn`.
 */
module RingInterleaving {
  import opened Ring

  datatype Cell<T> = Torn | Whole(item: T)

  datatype Producer<T> =
    | ProducerIdle
    | WriteLoaded(item: T, size: nat, write: nat)
    | Room(item: T, write: nat, next: nat)
    | Copying(item: T, write: nat, next: nat)
    | Filled(item: T, write: nat, next: nat)
    | Asking(write: nat)      // in `full`, with the write index loaded
    | Answered(isFull: bool)  // out of it, with its answer
  {
    predicate Rests() { ProducerIdle? || Answered? }
  }

  datatype Consumer<T> =
    | ConsumerIdle
    | ReadLoaded(read: nat)
    | Available(read: nat)
    | Draining(read: nat)
    | Drained(read: nat, item: T)

  /** `pushed` grows when the write index is stored, `popped` when the read index is; `broken`
      records that the consumer ever copied a torn slot. */
  datatype State<T> = State(
    slots: seq<Cell<T>>, samplesPerSlot: nat, read: nat, write: nat,
    producer: Producer<T>, consumer: Consumer<T>,
    pushed: seq<T>, popped: seq<T>, broken: bool)

  datatype Event<T> =
    | LoadWrite(item: T, size: nat) | CheckRoom | StartCopy | FinishCopy | StoreWrite
    | AskFull | CheckFull
    | LoadRead | CheckAvailable | StartDrain | FinishDrain | StoreRead

  function Init<T>(slotCount: nat, samplesPerSlot: nat): State<T> {
    State(seq(slotCount + 1, _ => Torn), samplesPerSlot, 0, 0, ProducerIdle, ConsumerIdle, [], [], false)
  }

  /** Every index in use is an index of a slot. */
  predicate Bounded<T>(s: State<T>) {
    && s.read < |s.slots| && s.write < |s.slots|
    && (!s.producer.Rests() ==> s.producer.write < |s.slots|)
    && (!s.consumer.ConsumerIdle? ==> s.consumer.read < |s.slots|)
  }

  predicate Enabled<T>(s: State<T>, e: Event<T>) {
    Bounded(s) &&
    match e
    case LoadWrite(_, _) => s.producer.Rests()
    case AskFull => s.producer.Rests()
    case CheckFull => s.producer.Asking?
    case CheckRoom => s.producer.WriteLoaded?
    case StartCopy => s.producer.Room?
    case FinishCopy => s.producer.Copying?
    case StoreWrite => s.producer.Filled?
    case LoadRead => s.consumer.ConsumerIdle?
    case CheckAvailable => s.consumer.ReadLoaded?
    case StartDrain => s.consumer.Available?
    case FinishDrain => s.consumer.Draining?
    case StoreRead => s.consumer.Drained?
  }

  function Apply<T>(s: State<T>, e: Event<T>): State<T>
    requires Enabled(s, e)
  {
    var n := |s.slots|;
    match e
    case LoadWrite(item, size) => s.(producer := WriteLoaded(item, size, s.write))
    case CheckRoom =>
      var next := Increment(s.producer.write, n);
      s.(producer := if next == s.read || s.producer.size > s.samplesPerSlot then ProducerIdle
                     else Room(s.producer.item, s.producer.write, next))
    case AskFull => s.(producer := Asking(s.write))
    case CheckFull => s.(producer := Answered(Increment(s.producer.write, n) == s.read))
    case StartCopy =>
      s.(slots := s.slots[s.producer.write := Torn],
         producer := Copying(s.producer.item, s.producer.write, s.producer.next))
    case FinishCopy =>
      s.(slots := s.slots[s.producer.write := Whole(s.producer.item)],
         producer := Filled(s.producer.item, s.producer.write, s.producer.next))
    case StoreWrite => s.(write := s.producer.next, producer := ProducerIdle, pushed := s.pushed + [s.producer.item])
    case LoadRead => s.(consumer := ReadLoaded(s.read))
    case CheckAvailable =>
      s.(consumer := if s.consumer.read == s.write then ConsumerIdle else Available(s.consumer.read))
    case StartDrain => s.(consumer := Draining(s.consumer.read))
    case FinishDrain =>
      var cell := s.slots[s.consumer.read];
      if cell.Torn? then s.(broken := true, consumer := ConsumerIdle)
      else s.(consumer := Drained(s.consumer.read, cell.item))
    case StoreRead =>
      s.(read := Increment(s.consumer.read, n), consumer := ConsumerIdle, popped := s.popped + [s.consumer.item])
  }

  predicate AllWhole<T>(cells: seq<Cell<T>>) {
    forall k :: 0 <= k < |cells| ==> cells[k].Whole?
  }

  /** The items of whole cells. */
  function Items<T>(cells: seq<Cell<T>>): (items: seq<T>)
    requires AllWhole(cells)
  {
    if cells == [] then [] else [cells[0].item] + Items(cells[1..])
  }

  lemma {:induction false} ItemsAppend<T>(cells: seq<Cell<T>>, item: T)
    requires AllWhole(cells)
    ensures AllWhole(cells + [Whole(item)]) && Items(cells + [Whole(item)]) == Items(cells) + [item]
    ensures |Items(cells)| == |cells|
  {
    if cells != [] {
      ItemsAppend(cells[1..], item);
      assert (cells + [Whole(item)])[1..] == cells[1..] + [Whole(item)];
    }
  }

  ghost predicate Inv<T>(s: State<T>) {
    && s.read < |s.slots| && s.write < |s.slots|
    && (!s.producer.Rests() ==> s.producer.write == s.write)
    && (s.producer == Answered(false) ==> Increment(s.write, |s.slots|) != s.read)
    && (s.producer.Room? || s.producer.Copying? || s.producer.Filled? ==>
          s.producer.next == Increment(s.write, |s.slots|) && s.producer.next != s.read)
    && (s.producer.Filled? ==> s.slots[s.write] == Whole(s.producer.item))
    && (!s.consumer.ConsumerIdle? ==> s.consumer.read == s.read)
    && (s.consumer.Available? || s.consumer.Draining? || s.consumer.Drained? ==> s.read != s.write)
    && (s.consumer.Drained? ==> s.slots[s.read] == Whole(s.consumer.item))
    && AllWhole(Window(s.slots, s.read, s.write))
    && s.popped + Items(Window(s.slots, s.read, s.write)) == s.pushed
    && !s.broken
  }

  /** The abstract queue: what the consumer would still get. */
  ghost function Queue<T>(s: State<T>): seq<T>
    requires Inv(s)
  {
    Items(Window(s.slots, s.read, s.write))
  }

  ghost function Capacity<T>(s: State<T>): int { |s.slots| - 1 }

  /** One step of a bounded first-in first-out queue, as the ring's step `e` performs it:
      storing an index is the push or the pop, and the three checks answer truthfully. */
  ghost predicate FifoStep<T>(s: State<T>, e: Event<T>, t: State<T>)
    requires Inv(s) && Inv(t) && Enabled(s, e)
  {
    var q, r := Queue(s), Queue(t);
    match e
    case StoreWrite => |q| < Capacity(s) && r == q + [s.producer.item] && t.pushed == s.pushed + [s.producer.item]
    case StoreRead => q != [] && r == q[1..] && t.popped == s.popped + [q[0]]
    case CheckRoom => r == q && (t.producer.ProducerIdle? <==> |q| == Capacity(s) || s.producer.size > s.samplesPerSlot)
    case CheckFull => r == q && t.producer == Answered(|q| == Capacity(s))
    case CheckAvailable => r == q && (t.consumer.ConsumerIdle? <==> q == [])
    case _ => r == q && t.pushed == s.pushed && t.popped == s.popped
  }

  lemma StoreWriteRefinesFifo<T>(s: State<T>)
    requires Inv(s) && Enabled(s, StoreWrite)
    ensures Inv(Apply(s, StoreWrite)) && FifoStep(s, StoreWrite, Apply(s, StoreWrite))
  {
    var item := s.producer.item;
    FullIffNextIsRead(|s.slots|, s.read, s.write);
    WindowPush(s.slots, s.read, s.write, Whole(item));
    ItemsAppend(Window(s.slots, s.read, s.write), item);
    assert s.slots[s.write := Whole(item)] == s.slots;
  }

  lemma StoreReadRefinesFifo<T>(s: State<T>)
    requires Inv(s) && Enabled(s, StoreRead)
    ensures Inv(Apply(s, StoreRead)) && FifoStep(s, StoreRead, Apply(s, StoreRead))
  {
    var w := Window(s.slots, s.read, s.write);
    var rest := Window(s.slots, Increment(s.read, |s.slots|), s.write);
    WindowPop(s.slots, s.read, s.write);
    assert w[1..] == rest;
    assert forall k :: 0 <= k < |rest| ==> rest[k] == w[k + 1];
  }

  /** Every step of either side keeps the invariant and is a step of the bounded queue. */
  lemma StepRefinesFifo<T>(s: State<T>, e: Event<T>)
    requires Inv(s) && Enabled(s, e)
    ensures Inv(Apply(s, e)) && FifoStep(s, e, Apply(s, e)) && Capacity(Apply(s, e)) == Capacity(s)
  {
    FullIffNextIsRead(|s.slots|, s.read, s.write);
    var w := Window(s.slots, s.read, s.write);
    assert |w| == |Items(w)| by {
      if w != [] { ItemsAppend(w, w[0].item); }
    }
    match e {
      case StartCopy => WindowIgnoresWriteSlot(s.slots, s.read, s.write, Torn);
      case FinishCopy => WindowIgnoresWriteSlot(s.slots, s.read, s.write, Whole(s.producer.item));
      case StoreWrite => StoreWriteRefinesFifo(s);
      case StoreRead => StoreReadRefinesFifo(s);
      case FinishDrain => assert w[0] == s.slots[s.read];
      case _ =>
    }
  }

  datatype Run<T> = Run(slotCount: nat, samplesPerSlot: nat, states: seq<State<T>>, events: seq<Event<T>>) {
    ghost predicate Valid() {
      && |states| == |events| + 1
      && states[0] == Init(slotCount, samplesPerSlot)
      && forall i :: 0 <= i < |events| ==>
           Enabled(states[i], events[i]) && states[i + 1] == Apply(states[i], events[i])
    }
  }

  /** In every reachable state what was popped, followed by what is queued, is what was pushed;
      the queue never exceeds its capacity and no torn slot was ever read. */
  lemma {:induction false} RunConservesItems<T>(r: Run<T>, i: nat)
    requires r.Valid() && i < |r.states|
    ensures Inv(r.states[i])
    ensures r.states[i].popped + Queue(r.states[i]) == r.states[i].pushed
    ensures |Queue(r.states[i])| <= r.slotCount == Capacity(r.states[i])
    ensures !r.states[i].broken
  {
    if i > 0 {
      RunConservesItems(r, i - 1);
      StepRefinesFifo(r.states[i - 1], r.events[i - 1]);
      assert r.states[i - 1 + 1] == Apply(r.states[i - 1], r.events[i - 1]);
    }
  }

  /** The answer "not full" stays true for the producer until it pushes: the consumer only makes
      more room. */
  lemma NotFullStays<T>(r: Run<T>, i: nat)
    requires r.Valid() && i < |r.states| && r.states[i].producer == Answered(false)
    ensures Inv(r.states[i]) && |Queue(r.states[i])| < r.slotCount
  {
    RunConservesItems(r, i);
    var s := r.states[i];
    FullIffNextIsRead(|s.slots|, s.read, s.write);
    var w := Window(s.slots, s.read, s.write);
    if w != [] { ItemsAppend(w, w[0].item); }
  }

  /** In every reachable state producer and consumer have hold of different slots. */
  lemma SidesNeverShareASlot<T>(r: Run<T>, i: nat)
    requires r.Valid() && i < |r.states|
    ensures
      var s := r.states[i];
      (s.producer.Copying? || s.producer.Filled?) && (s.consumer.Draining? || s.consumer.Drained?) ==>
        s.producer.write != s.consumer.read
  {
    RunConservesItems(r, i);
  }
}

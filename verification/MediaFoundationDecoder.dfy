/** The decoder's PCM cache: packets of any size in, blocks of the requested size out. */
module MediaFoundationDecoder {
  import opened Wrappers
  import opened DecoderValidation

  datatype Failure =
    | Cancelled | NotOpen | TooLarge | SourceFailed | BadBuffer | TimestampOverflow | BadPosition | BadSource
    | BadFormat | NoMemory

  datatype Block = Block(samples: seq<real>, position: int, duration: int, endOfStream: bool)

  /** What can be wrong with a packet: its memory cannot be read, or cannot be released. */
  datatype Problem = Sound | Unreadable | UnlockFails

  /** What one call of the source reader gives. */
  datatype Kind =
    | ReadFailed
    | NotAccepting
    | EndOfStream
    | NoSample
    | Packet(time: int, floats: seq<real>, problem: Problem)

  /** A reading, with the cancellations other threads request just before and during the call. */
  datatype Reading = Reading(early: nat, late: nat, kind: Kind)

  /** The readings of one request; a reader that has nothing left fails. */
  function At(script: seq<Reading>, i: nat): Reading {
    if i < |script| then script[i] else Reading(0, 0, ReadFailed)
  }

  /** The samples of the first `n` readings. */
  function Floats(script: seq<Reading>, n: nat): seq<real> {
    if n == 0 then []
    else Floats(script, n - 1) + FloatsOf(At(script, n - 1).kind)
  }

  function FloatsOf(kind: Kind): seq<real> { if kind.Packet? then kind.floats else [] }

  /** `now` is `first` with the samples of the first `n` readings behind it. */
  ghost predicate Grown(first: seq<real>, now: seq<real>, script: seq<Reading>, n: nat) {
    now == first + Floats(script, n)
  }

  lemma GrownFurther(first: seq<real>, previous: seq<real>, now: seq<real>, script: seq<Reading>, n: nat)
    requires Grown(first, previous, script, n) && now == previous + FloatsOf(At(script, n).kind)
    ensures Grown(first, now, script, n + 1) && |now| >= |previous|
  {
  }

  /** Of the first `n` readings the last one was still needed, with `have` samples to begin with. */
  ghost predicate AllNeeded(have: int, script: seq<Reading>, n: nat, required: nat) {
    n > 0 ==> have + |Floats(script, n - 1)| < required
  }

  /** The source has ended, by the last of the first `n` readings or before. */
  predicate EndedBy(ended: bool, before: bool, script: seq<Reading>, n: nat) {
    ended <==> before || (n > 0 && At(script, n - 1).kind.EndOfStream?)
  }

  /** What is reported for a reading that fails: a cancellation once the epoch has moved or the source
      refuses the call, and otherwise what is wrong with the call or its packet. */
  predicate Explains(kind: Kind, moved: bool, f: Failure) {
    match f
    case Cancelled => moved || kind.NotAccepting?
    case SourceFailed => !moved && (kind.ReadFailed? || (kind.Packet? && kind.problem.UnlockFails?))
    case BadBuffer => !moved && kind.Packet?
    case _ => false
  }

  /** What is reported for a read that has all its samples and fails. */
  predicate FinishFails(f: Failure, moved: bool, hasMemory: bool, fits: bool) {
    match f
    case Cancelled => moved
    case TimestampOverflow => !moved && !fits
    case NoMemory => !moved && fits && !hasMemory
    case _ => false
  }

  /** What is reported for a read that fails. */
  predicate Justified(kind: Kind, moved: bool, f: Failure, hasReader: bool, hasMemory: bool, fits: bool) {
    Explains(kind, moved, f) || FinishFails(f, moved, hasMemory, fits) || (f.NotOpen? && !moved && !hasReader)
  }

  lemma OneMoreNeeded(first: seq<real>, now: seq<real>, script: seq<Reading>, n: nat, offset: int, required: nat)
    requires Grown(first, now, script, n) && |now| - offset < required
    ensures AllNeeded(|first| - offset, script, n + 1, required)
  {
  }

  function Zeros(n: nat): (zeros: seq<real>)
    ensures |zeros| == n
  {
    seq(n, _ => 0.0)
  }

  /** The outcome of the foreign calls behind a seek or an open. */
  datatype Foreign = Foreign(requests: nat, failed: bool, notAccepting: bool, duration: nat)

  /** What is reported for a packet that cannot be kept. */
  predicate PacketFails(f: Failure, problem: Problem) { f.BadBuffer? || (f.SourceFailed? && problem.UnlockFails?) }

  /** What happens between the last reading and the end of a read: the cancellations other threads
      request, and whether the block can be allocated. */
  datatype End = End(requests: nat, hasMemory: bool)

  datatype Format = Format(interleaved: bool, layoutValid: bool, rate: nat, channels: nat) {
    predicate Valid() { interleaved && layoutValid && rate > 0 && channels > 0 && rate * channels * 4 <= 0xFFFF_FFFF }
  }

  class Decoder {
    const maxSize: nat
    var reader: bool
    var channels: nat
    var rate: nat
    var decoded: seq<real>
    var offset: nat
    var nextTime: int
    var duration: nat
    var eos: bool
    /** The cancellation epoch, advanced by any thread. */
    var epoch: nat
    /** All samples read, and all samples handed out, since the last open or seek. */
    ghost var appended: seq<real>
    ghost var delivered: seq<real>
    /** All samples of all blocks since then, silence included. */
    ghost var output: seq<real>
    /** All samples the reader has given since then, and whether the cache misses some of them, or
        the reader has been moved by a seek that then failed. */
    ghost var passed: seq<real>
    ghost var torn: bool
    /** The last time the timestamp was set to, and the frames of the blocks handed out since. */
    ghost var anchor: int
    ghost var blocks: seq<nat>

    ghost function Undelivered(): seq<real>
      requires offset <= |decoded|
      reads `decoded, `offset
    {
      decoded[offset..]
    }

    ghost predicate CacheValid()
      reads `reader, `channels, `rate, `decoded, `offset, `eos
    {
      && offset <= |decoded| <= maxSize && (decoded != [] ==> offset < |decoded|)
      && (if reader then channels > 0 && rate > 0 && Whole(|decoded|, channels) && Whole(offset, channels)
          else decoded == [] && !eos && channels == 0)
    }

    /** Every sample read is either handed out or still in the cache, in order; and the timestamp
        is its last anchor moved on by every block since. The blocks are what was handed out, and
        silence behind it only once the source has ended and the cache is empty. Unless it is torn,
        the cache has had all that the reader gave. */
    ghost predicate Valid()
      reads `reader, `channels, `rate, `decoded, `offset, `eos, `nextTime, `appended, `delivered, `output, `passed,
            `torn, `anchor, `blocks
    {
      && CacheValid() && Accounted(appended, delivered, Undelivered(), output, eos && decoded == [])
      && nextTime >= 0 && nextTime == anchor + Elapsed(blocks, rate)
      && (!torn ==> passed == appended)
    }

    constructor (maxSize: nat)
      ensures Valid() && !reader && epoch == 0 && this.maxSize == maxSize
    {
      this.maxSize := maxSize;
      reader, channels, rate, decoded, offset, nextTime, duration, eos, epoch := false, 0, 0, [], 0, 0, 0, false, 0;
      appended, delivered, output, passed, torn, anchor, blocks := [], [], [], [], false, 0, [];
    }

    method RequestCancel() returns (requested: nat)
      modifies this`epoch
      ensures epoch == old(epoch) + 1 == requested
    {
      epoch := epoch + 1;
      return epoch;
    }

    /** Starts the account over with an empty cache. */
    method Restart(time: int)
      requires time >= 0
      modifies this`decoded, this`offset, this`nextTime, this`eos, this`appended, this`delivered, this`output,
               this`passed, this`torn, this`anchor, this`blocks
      ensures decoded == [] && offset == 0 && nextTime == time && !eos
              && appended == delivered == output == passed == [] && !torn
      ensures anchor == time && blocks == []
    {
      decoded, offset, nextTime, eos := [], 0, time, false;
      appended, delivered, output, passed, torn, anchor, blocks := [], [], [], [], false, time, [];
    }

    method Close()
      modifies this
      ensures Valid() && !reader && epoch == old(epoch) && decoded == [] && nextTime == 0 && duration == 0
    {
      reader, channels, rate, duration := false, 0, 0, 0;
      Restart(0);
    }

    /** Opens a source; a failed open leaves the decoder closed. */
    method Open(uri: string, format: Format, operationEpoch: nat, outcome: Foreign) returns (r: Result<(), Failure>)
      modifies this
      ensures Valid() && reader == r.Ok? && epoch >= old(epoch)
      ensures r.Ok? ==>
              uri != "" && format.Valid() && (channels, rate) == (format.channels, format.rate)
              && epoch == operationEpoch
      ensures r.Ok? ==> nextTime == 0 && appended == [] && !eos && !torn && duration == outcome.duration
      ensures r == Err(Cancelled) ==> epoch != operationEpoch
      ensures r.Ok? <==> uri != "" && format.Valid() && old(epoch) == operationEpoch && !outcome.failed
                         && outcome.requests == 0
      ensures r.Err? ==>
              r.error == if uri == "" then BadSource else if !format.Valid() then BadFormat
                         else if old(epoch) != operationEpoch || outcome.requests > 0 then Cancelled else SourceFailed
    {
      Close();
      if uri == "" { return Err(BadSource); }
      if !format.Valid() { return Err(BadFormat); }
      if epoch != operationEpoch { return Err(Cancelled); }
      epoch := epoch + outcome.requests;
      if outcome.failed { return Err(if epoch != operationEpoch then Cancelled else SourceFailed); }
      if epoch != operationEpoch { return Err(Cancelled); }
      reader, channels, rate, duration := true, format.channels, format.rate, outcome.duration;
      Restart(0);
      return Ok(());
    }

    /** Whether a seek gets as far as asking the reader to move. */
    ghost predicate SeekTried(position: int, operationEpoch: nat)
      reads `reader, `epoch
    {
      epoch == operationEpoch && reader && MillisecondsTo100ns(position).Some?
    }

    /** Whether a seek gets as far as moving the reader. */
    ghost predicate SeekMoves(position: int, operationEpoch: nat, outcome: Foreign)
      reads `reader, `epoch
    {
      SeekTried(position, operationEpoch) && !outcome.failed
    }

    /** Moves the source. A successful seek drops the cache; a failed one leaves it, but one that is
        cancelled after the reader has moved leaves it torn. */
    method SeekTo(position: int, operationEpoch: nat, outcome: Foreign) returns (r: Result<(), Failure>)
      requires Valid()
      modifies this
      ensures Valid() && reader == old(reader) && epoch >= old(epoch)
      ensures channels == old(channels) && rate == old(rate) && duration == old(duration)
      ensures r.Ok? <==> old(SeekMoves(position, operationEpoch, outcome)) && outcome.requests == 0
      ensures r.Ok? ==>
              MillisecondsTo100ns(position) == Some(nextTime) && appended == [] && !eos && !torn
              && epoch == operationEpoch
      ensures r.Err? ==>
              decoded == old(decoded) && offset == old(offset) && nextTime == old(nextTime) && eos == old(eos)
      ensures r.Err? ==> appended == old(appended) && delivered == old(delivered) && output == old(output)
      ensures r.Err? ==> torn == (old(torn) || old(SeekMoves(position, operationEpoch, outcome)))
      ensures r == Err(Cancelled) ==> epoch != operationEpoch || outcome.notAccepting
      ensures old(epoch) != operationEpoch ==> r == Err(Cancelled)
      ensures r == Err(NotOpen) <==> old(epoch) == operationEpoch && !old(reader)
      ensures r == Err(BadPosition) <==>
              old(epoch) == operationEpoch && old(reader) && MillisecondsTo100ns(position).None?
      ensures old(SeekTried(position, operationEpoch)) ==>
              (r == Err(SourceFailed) <==> outcome.failed && outcome.requests == 0 && !outcome.notAccepting)
    {
      if epoch != operationEpoch { return Err(Cancelled); }
      if !reader { return Err(NotOpen); }
      var ticks := MillisecondsTo100ns(position);
      if ticks.None? { return Err(BadPosition); }
      epoch := epoch + outcome.requests;
      if outcome.failed {
        return Err(if epoch != operationEpoch || outcome.notAccepting then Cancelled else SourceFailed);
      }
      r := Moved(ticks.value, operationEpoch);
    }

    /** The end of a seek, once the reader has moved. */
    method Moved(ticks: int, operationEpoch: nat) returns (r: Result<(), Failure>)
      requires Valid() && reader && ticks >= 0
      modifies this`decoded, this`offset, this`nextTime, this`eos, this`appended, this`delivered, this`output,
               this`passed, this`torn, this`anchor, this`blocks
      ensures Valid() && (r.Ok? <==> epoch == operationEpoch) && (r.Err? ==> r.error == Cancelled)
      ensures r.Ok? ==> nextTime == ticks && appended == [] && !eos && !torn
      ensures r.Err? ==>
              decoded == old(decoded) && offset == old(offset) && nextTime == old(nextTime) && eos == old(eos)
      ensures r.Err? ==> appended == old(appended) && delivered == old(delivered) && output == old(output) && torn
    {
      if epoch != operationEpoch {
        torn := true;
        return Err(Cancelled);
      }
      Restart(ticks);
      return Ok(());
    }

    /** Sets the timestamp to that of a packet that finds the cache empty. */
    method Anchor(time: int)
      requires Valid()
      modifies this`nextTime, this`anchor, this`blocks
      ensures Valid()
      ensures if decoded == [] then nextTime == anchor == (if time < 0 then 0 else time) && blocks == []
              else nextTime == old(nextTime) && anchor == old(anchor) && blocks == old(blocks)
    {
      if decoded == [] {
        nextTime := if time < 0 then 0 else time;
        anchor, blocks := nextTime, [];
      }
    }

    /** Adds a packet to the cache, or refuses it as a whole. */
    method Append(floats: seq<real>, problem: Problem) returns (failure: Option<Failure>)
      requires Valid() && reader && !eos
      modifies this`decoded, this`appended, this`passed, this`torn
      ensures Valid()
      ensures failure.None? <==> Fits(floats, problem, |old(decoded)|)
      ensures failure.None? ==>
              appended == old(appended) + floats && decoded == old(decoded) + floats && torn == old(torn)
      ensures failure.Some? ==>
              appended == old(appended) && decoded == old(decoded) && torn && PacketFails(failure.value, problem)
    {
      failure := Refused(floats, problem);
      if failure.Some? {
        torn := true;
        return;
      }
      var previous := |decoded|;
      if problem == UnlockFails {
        decoded := decoded + floats;
        decoded := decoded[..previous];
        assert decoded == old(decoded);
        torn := true;
        return Some(SourceFailed);
      }
      Keep(floats);
    }

    /** Why a packet cannot be copied, if it cannot. */
    method Refused(floats: seq<real>, problem: Problem) returns (failure: Option<Failure>)
      requires Valid() && reader
      ensures failure.None? <==> problem != Unreadable && |floats| % channels == 0 && |decoded| + |floats| <= maxSize
      ensures failure.None? ==> Whole(|floats|, channels)
      ensures failure.Some? ==> failure.value.BadBuffer?
    {
      WholeIsMultiple(|floats|, channels);
      if problem == Unreadable { return Some(BadBuffer); }
      if |floats| % channels != 0 || |floats| > maxSize - |decoded| { return Some(BadBuffer); }
      return None;
    }

    method Keep(floats: seq<real>)
      requires Valid() && reader && !eos && Whole(|floats|, channels) && |decoded| + |floats| <= maxSize
      modifies this`decoded, this`appended, this`passed
      ensures Valid() && appended == old(appended) + floats && decoded == old(decoded) + floats
    {
      ghost var pending := Undelivered();
      WholeSum(|decoded|, |floats|, channels);
      JoinsInTurn(delivered, pending, floats);
      decoded := decoded + floats;
      assert Undelivered() == pending + floats;
      appended, passed := appended + floats, passed + floats;
    }

    /** Drops a packet that comes too late. */
    ghost method Miss(kind: Kind)
      requires Valid()
      modifies this`torn
      ensures Valid() && torn == (old(torn) || kind.Packet?)
    {
      torn := torn || kind.Packet?;
    }

    /** What the reader gave, if it is not too late. */
    method Receive(kind: Kind) returns (failure: Option<Failure>)
      requires Valid() && reader && !eos && !kind.ReadFailed? && !kind.NotAccepting?
      modifies this`eos, this`decoded, this`nextTime, this`appended, this`passed, this`torn, this`anchor, this`blocks
      ensures Valid()
      ensures failure.None? ==> eos == kind.EndOfStream?
      ensures failure.None? ==> appended == old(appended) + FloatsOf(kind) && decoded == old(decoded) + FloatsOf(kind)
      ensures failure.Some? ==>
              appended == old(appended) && decoded == old(decoded) && !eos && Explains(kind, false, failure.value)
      ensures torn == (old(torn) || (failure.Some? && kind.Packet?))
      ensures failure.None? <==> kind.Packet? ==> Fits(kind.floats, kind.problem, |old(decoded)|)
    {
      match kind {
        case EndOfStream => eos := true;
        case NoSample =>
        case Packet(time, floats, problem) =>
          Anchor(time);
          failure := Append(floats, problem);
          return;
      }
      return None;
    }

    /** What the call of the reader comes to before what it gave is looked at. */
    function CallFailure(kind: Kind, operationEpoch: nat): (failure: Option<Failure>)
      reads `epoch
      ensures failure.Some? ==> Explains(kind, epoch != operationEpoch, failure.value)
      ensures failure.None? <==> epoch == operationEpoch && !kind.ReadFailed? && !kind.NotAccepting?
    {
      if kind.ReadFailed? then Some(if epoch != operationEpoch then Cancelled else SourceFailed)
      else if kind.NotAccepting? || epoch != operationEpoch then Some(Cancelled)
      else None
    }

    /** Whether a reading can be taken into a cache that has `have` samples. */
    predicate Takes(reading: Reading, have: nat)
      reads `channels
    {
      && reading.early == 0 && reading.late == 0 && !reading.kind.ReadFailed? && !reading.kind.NotAccepting?
      && (reading.kind.Packet? ==> Fits(reading.kind.floats, reading.kind.problem, have))
    }

    /** Whether a packet is sound, of whole frames, and there is room for it. */
    predicate Fits(floats: seq<real>, problem: Problem, have: nat)
      reads `channels
    {
      problem == Sound && channels > 0 && |floats| % channels == 0 && have + |floats| <= maxSize
    }

    /** One turn of the reading loop: what the reader gave is in the account, or nothing is. */
    method TakeReading(reading: Reading, operationEpoch: nat) returns (failure: Option<Failure>)
      requires Valid() && reader && !eos && epoch == operationEpoch
      modifies this`epoch, this`eos, this`decoded, this`nextTime, this`appended, this`passed, this`torn, this`anchor,
               this`blocks
      ensures Valid() && epoch >= old(epoch)
      ensures failure.None? ==> epoch == operationEpoch && !reading.kind.ReadFailed? && eos == reading.kind.EndOfStream?
      ensures failure.None? ==>
              appended == old(appended) + FloatsOf(reading.kind) && decoded == old(decoded) + FloatsOf(reading.kind)
      ensures failure.Some? ==> appended == old(appended) && decoded == old(decoded) && !eos
      ensures torn == (old(torn) || (failure.Some? && reading.early == 0 && reading.kind.Packet?))
      ensures failure.Some? ==> Explains(reading.kind, epoch != operationEpoch, failure.value)
      ensures failure.None? <==> Takes(reading, |old(decoded)|)
    {
      epoch := epoch + reading.early;
      if epoch != operationEpoch { return Some(Cancelled); }
      epoch := epoch + reading.late;
      failure := CallFailure(reading.kind, operationEpoch);
      if failure.Some? {
        Miss(reading.kind);
        return;
      }
      failure := Receive(reading.kind);
    }

    /** The reading loop after `taken` turns, of which the last was still needed. */
    ghost predicate Filling(firstDecoded: seq<real>, firstAppended: seq<real>, ended: bool, wasTorn: bool,
                            script: seq<Reading>, taken: nat, required: nat)
      reads `reader, `decoded, `offset, `eos, `appended, `torn
    {
      && reader && taken <= |script| && torn == wasTorn && EndedBy(eos, ended, script, taken)
      && Grown(firstDecoded, decoded, script, taken) && Grown(firstAppended, appended, script, taken)
      && (taken > 0 ==> !ended) && AllNeeded(|firstDecoded| - offset, script, taken, required)
    }

    /** The reading loop when its turn `taken` has failed. */
    ghost predicate Stopped(firstDecoded: seq<real>, firstAppended: seq<real>, ended: bool, script: seq<Reading>,
                            taken: nat, required: nat, moved: bool, f: Failure)
      reads `reader, `channels, `decoded, `offset, `eos, `appended
    {
      && reader && taken <= |script| && !ended && !eos
      && Grown(firstDecoded, decoded, script, taken) && Grown(firstAppended, appended, script, taken)
      && Explains(At(script, taken).kind, moved, f) && !Takes(At(script, taken), |decoded|)
      && AllNeeded(|firstDecoded| - offset, script, taken, required)
    }

    /** A turn of the loop, told of all turns so far. */
    method TakeNext(script: seq<Reading>, taken: nat, operationEpoch: nat, required: nat, ghost firstDecoded: seq<real>,
                    ghost firstAppended: seq<real>, ghost ended: bool, ghost wasTorn: bool)
      returns (failure: Option<Failure>)
      requires Valid() && Filling(firstDecoded, firstAppended, ended, wasTorn, script, taken, required)
      requires !eos && !ended && epoch == operationEpoch && |decoded| - offset < required
      modifies this`epoch, this`eos, this`decoded, this`nextTime, this`appended, this`passed, this`torn, this`anchor,
               this`blocks
      ensures Valid() && epoch >= old(epoch)
      ensures failure.None? ==> epoch == operationEpoch && (eos || taken < |script|)
                                && Filling(firstDecoded, firstAppended, ended, wasTorn, script, taken + 1, required)
      ensures failure.Some? ==> Stopped(firstDecoded, firstAppended, ended, script, taken, required,
                                        epoch != operationEpoch, failure.value)
    {
      OneMoreNeeded(firstDecoded, decoded, script, taken, offset, required);
      failure := TakeReading(At(script, taken), operationEpoch);
      if failure.None? {
        GrownFurther(firstDecoded, old(decoded), decoded, script, taken);
        GrownFurther(firstAppended, old(appended), appended, script, taken);
      }
    }

    /** The reading loop of an open decoder. */
    method ReadOn(required: nat, operationEpoch: nat, script: seq<Reading>)
      returns (failure: Option<Failure>, taken: nat)
      requires Valid() && reader && epoch == operationEpoch
      modifies this`epoch, this`eos, this`decoded, this`nextTime, this`appended, this`passed, this`torn, this`anchor,
               this`blocks
      ensures Valid() && epoch >= old(epoch)
      ensures failure.None? ==> epoch == operationEpoch && (|decoded| - offset >= required || eos)
                                && Filling(old(decoded), old(appended), old(eos), old(torn), script, taken, required)
      ensures failure.Some? ==> Stopped(old(decoded), old(appended), old(eos), script, taken, required,
                                        epoch != operationEpoch, failure.value)
    {
      taken := 0;
      while |decoded| - offset < required && !eos
        invariant Valid() && epoch == operationEpoch
        invariant Filling(old(decoded), old(appended), old(eos), old(torn), script, taken, required)
        decreases |script| - taken, !eos
      {
        failure := TakeNext(script, taken, operationEpoch, required, old(decoded), old(appended), old(eos), old(torn));
        if failure.Some? { return; }
        taken := taken + 1;
      }
      return None, taken;
    }

    /** Reads until `required` samples are in the cache or the source ends. */
    method EnsureDecodedFrames(required: nat, operationEpoch: nat, script: seq<Reading>)
      returns (failure: Option<Failure>, taken: nat)
      requires Valid() && epoch == operationEpoch
      modifies this`epoch, this`eos, this`decoded, this`nextTime, this`appended, this`passed, this`torn, this`anchor,
               this`blocks
      ensures Valid() && epoch >= old(epoch) && taken <= |script|
      ensures Grown(old(appended), appended, script, taken) && Grown(old(decoded), decoded, script, taken)
      ensures failure.None? ==> reader && epoch == operationEpoch && torn == old(torn)
                                && EndedBy(eos, old(eos), script, taken) && (|decoded| - offset >= required || eos)
      ensures failure.Some? ==> eos == old(eos)
      ensures failure.Some? ==> if reader then Explains(At(script, taken).kind, epoch != operationEpoch, failure.value)
                                               && !Takes(At(script, taken), |decoded|)
                                else failure.value.NotOpen? && epoch == operationEpoch && taken == 0
      ensures old(eos) || |old(decoded)| - offset >= required ==> taken == 0
      ensures AllNeeded(|old(decoded)| - offset, script, taken, required)
    {
      if !reader { return Some(NotOpen), 0; }
      failure, taken := ReadOn(required, operationEpoch, script);
    }

    /** The same, told of what is not yet handed out. */
    method Fill(required: nat, operationEpoch: nat, script: seq<Reading>) returns (failure: Option<Failure>, taken: nat)
      requires Valid() && epoch == operationEpoch
      modifies this`epoch, this`eos, this`decoded, this`nextTime, this`appended, this`passed, this`torn, this`anchor,
               this`blocks
      ensures Valid() && epoch >= old(epoch) && taken <= |script|
      ensures appended == old(appended) + Floats(script, taken)
              && Undelivered() == old(Undelivered()) + Floats(script, taken)
      ensures failure.None? ==> reader && epoch == operationEpoch && (|decoded| - offset >= required || eos)
      ensures failure.None? ==> torn == old(torn) && (old(eos) ==> eos && taken == 0)
      ensures failure.Some? ==> if reader then Explains(At(script, taken).kind, epoch != operationEpoch, failure.value)
                                               && !Takes(At(script, taken), |decoded|)
                                else failure.value.NotOpen? && epoch == operationEpoch && taken == 0
      ensures AllNeeded(|old(Undelivered())|, script, taken, required)
    {
      failure, taken := EnsureDecodedFrames(required, operationEpoch, script);
      assert Undelivered() == old(Undelivered()) + Floats(script, taken);
    }

    /** Takes `n` samples out of the cache. */
    method Drop(n: nat)
      requires CacheValid() && reader && n <= |decoded| - offset && Whole(n, channels)
      modifies this`decoded, this`offset
      ensures CacheValid() && Undelivered() == old(Undelivered())[n..]
      ensures decoded == [] <==> n == |old(Undelivered())|
    {
      DropsFront(decoded, offset, n, channels);
      offset := offset + n;
      if offset >= |decoded| {
        decoded, offset := [], 0;
      }
    }

    /** Moves `n` cached samples into the account of those handed out. */
    method Deliver(n: nat)
      requires Valid() && reader && n <= |decoded| - offset && Whole(n, channels)
      modifies this`decoded, this`offset, this`delivered, this`output
      ensures Valid()
      ensures delivered == old(delivered) + old(Undelivered())[..n] && Undelivered() == old(Undelivered())[n..]
      ensures output == old(output) + old(Undelivered())[..n]
      ensures decoded == [] <==> n == |old(Undelivered())|
    {
      ghost var pending, ended := Undelivered(), eos && decoded == [];
      Drop(n);
      AccountedFurther(appended, delivered, pending, output, n, ended, eos && decoded == []);
      delivered, output := delivered + pending[..n], output + pending[..n];
    }

    /** Counts a block of `frames` frames that ends at `next`. */
    method AdvanceTime(frames: nat, next: int)
      requires Valid() && reader && AdvanceTimestamp100ns(nextTime, frames, rate) == Some(next)
      modifies this`nextTime, this`blocks
      ensures Valid() && nextTime == next
      ensures anchor == old(anchor) && blocks == old(blocks) + [frames]
    {
      assert (blocks + [frames])[..|blocks|] == blocks;
      nextTime, blocks := next, blocks + [frames];
    }

    /** Reads a block of exactly `frames` frames. What was read and not yet handed out comes first,
        in order; only a source that has ended is padded, with silence; and a block is the last
        one exactly when the source has ended and nothing is left. A failed call hands out nothing
        and keeps what it had read. */
    method ReadFrames(frames: nat, operationEpoch: nat, script: seq<Reading>, end: End)
      returns (r: Result<Block, Failure>, taken: nat)
      requires Valid()
      modifies this`epoch, this`eos, this`decoded, this`offset, this`nextTime, this`appended, this`delivered,
               this`output, this`passed, this`torn, this`anchor, this`blocks
      ensures Valid() && epoch >= old(epoch) && taken <= |script|
      ensures appended == old(appended) + Floats(script, taken)
      ensures r.Ok? ==> reader && epoch == operationEpoch && blocks != [] && blocks[|blocks| - 1] == frames
      ensures r.Ok? ==> Serves(old(Undelivered()) + Floats(script, taken), frames * channels, r.value, Undelivered(),
                               eos, nextTime)
      ensures r.Ok? && old(eos) ==> eos && taken == 0
      ensures r.Ok? ==> output == old(output) + r.value.samples && torn == old(torn)
      ensures r.Ok? ==> WholeMilliseconds(r.value.duration, duration)
      ensures r.Err? ==>
              output == old(output) && delivered == old(delivered)
              && Undelivered() == old(Undelivered()) + Floats(script, taken)
      ensures r.Err? && r.error != TooLarge ==>
              Justified(At(script, taken).kind, epoch != operationEpoch, r.error, reader, end.hasMemory,
                        TimeFits(frames))
      ensures r.Err? ==> old(epoch) != operationEpoch || channels == 0 || frames * channels > maxSize
                         || !Takes(At(script, taken), |decoded|) || !CanFinish(frames, end)
      ensures AllNeeded(|old(Undelivered())|, script, taken, frames * channels)
      ensures old(epoch) != operationEpoch ==> r == Err(Cancelled) && taken == 0
      ensures r == Err(TooLarge) <==> old(epoch) == operationEpoch && (channels == 0 || frames * channels > maxSize)
      ensures r == Err(TooLarge) ==> taken == 0
    {
      taken := 0;
      if epoch != operationEpoch { return Err(Cancelled), 0; }
      var requested := RequestedSamples(frames);
      if requested.None? { return Err(TooLarge), 0; }
      r, taken := ReadSamples(requested.value, frames, operationEpoch, script, end);
    }

    /** `ReadFrames` once the request is known to fit. */
    method ReadSamples(requested: nat, frames: nat, operationEpoch: nat, script: seq<Reading>, end: End)
      returns (r: Result<Block, Failure>, taken: nat)
      requires Valid() && epoch == operationEpoch && channels > 0 && Whole(requested, channels)
      modifies this`epoch, this`eos, this`decoded, this`offset, this`nextTime, this`appended, this`delivered,
               this`output, this`passed, this`torn, this`anchor, this`blocks
      ensures Valid() && epoch >= old(epoch) && taken <= |script|
      ensures appended == old(appended) + Floats(script, taken)
      ensures r.Ok? ==> reader && epoch == operationEpoch && blocks != [] && blocks[|blocks| - 1] == frames
      ensures r.Ok? ==> Serves(old(Undelivered()) + Floats(script, taken), requested, r.value, Undelivered(), eos,
                               nextTime)
      ensures r.Ok? && old(eos) ==> eos && taken == 0
      ensures r.Ok? ==> output == old(output) + r.value.samples && torn == old(torn)
      ensures r.Ok? ==> WholeMilliseconds(r.value.duration, duration)
      ensures r.Err? ==>
              output == old(output) && delivered == old(delivered)
              && Undelivered() == old(Undelivered()) + Floats(script, taken)
      ensures r.Err? ==> Justified(At(script, taken).kind, epoch != operationEpoch, r.error, reader, end.hasMemory,
                                   TimeFits(frames))
      ensures r.Err? ==> !Takes(At(script, taken), |decoded|) || !CanFinish(frames, end)
      ensures AllNeeded(|old(Undelivered())|, script, taken, requested)
    {
      var failure: Option<Failure>;
      failure, taken := Fill(requested, operationEpoch, script);
      if failure.Some? { return Err(failure.value), taken; }
      r := FinishUnlessCancelled(frames, requested, operationEpoch, end);
    }

    /** Whether the end of a block of `frames` frames has a timestamp. */
    predicate TimeFits(frames: nat)
      reads `nextTime, `rate
    {
      AdvanceTimestamp100ns(nextTime, frames, rate).Some?
    }

    /** Whether a block can be made at the end of a read: nobody has cancelled it, its timestamp does not
        overflow, and there is memory. */
    predicate CanFinish(frames: nat, end: End)
      reads `nextTime, `rate
    {
      end.requests == 0 && end.hasMemory && TimeFits(frames)
    }

    /** The end of a read, once there are enough samples. */
    method FinishUnlessCancelled(frames: nat, requested: nat, operationEpoch: nat, end: End)
      returns (r: Result<Block, Failure>)
      requires Valid() && reader && epoch == operationEpoch && Whole(requested, channels)
      requires |decoded| - offset >= requested || eos
      modifies this`epoch, this`decoded, this`offset, this`delivered, this`output, this`nextTime, this`blocks
      ensures Valid() && epoch >= old(epoch) && (r == Err(Cancelled) <==> epoch != operationEpoch)
      ensures r.Ok? ==> Serves(old(Undelivered()), requested, r.value, Undelivered(), eos, nextTime)
      ensures r.Ok? ==> blocks == old(blocks) + [frames] && output == old(output) + r.value.samples
      ensures r.Ok? ==> WholeMilliseconds(r.value.duration, duration)
      ensures r.Err? ==> output == old(output) && delivered == old(delivered) && Undelivered() == old(Undelivered())
      ensures r.Err? ==> nextTime == old(nextTime) && decoded == old(decoded)
      ensures r.Ok? <==> old(CanFinish(frames, end))
      ensures r.Err? ==> FinishFails(r.error, epoch != operationEpoch, end.hasMemory,
                                     TimeFits(frames))
    {
      epoch := epoch + end.requests;
      if epoch != operationEpoch { return Err(Cancelled); }
      r := FinishBlock(frames, requested, end.hasMemory);
    }

    /** The timestamp is checked, and the block allocated, before anything is handed out. */
    method FinishBlock(frames: nat, requested: nat, hasMemory: bool) returns (r: Result<Block, Failure>)
      requires Valid() && reader && Whole(requested, channels) && (|decoded| - offset >= requested || eos)
      modifies this`decoded, this`offset, this`delivered, this`output, this`nextTime, this`blocks
      ensures Valid() && r != Err(Cancelled)
      ensures r.Ok? ==> Serves(old(Undelivered()), requested, r.value, Undelivered(), eos, nextTime)
      ensures r.Ok? ==> blocks == old(blocks) + [frames] && output == old(output) + r.value.samples
      ensures r.Ok? ==> WholeMilliseconds(r.value.duration, duration)
      ensures r.Err? ==> output == old(output) && delivered == old(delivered) && Undelivered() == old(Undelivered())
      ensures r.Err? ==> nextTime == old(nextTime) && decoded == old(decoded)
      ensures r.Ok? <==> old(CanFinish(frames, End(0, hasMemory)))
      ensures r.Err? ==>
              r.error == if AdvanceTimestamp100ns(old(nextTime), frames, rate).None? then TimestampOverflow
                         else NoMemory
    {
      var next := AdvanceTimestamp100ns(nextTime, frames, rate);
      if next.None? { return Err(TimestampOverflow); }
      if !hasMemory { return Err(NoMemory); }
      var block := Emit(frames, requested, next.value);
      return Ok(block);
    }

    /** Hands samples out and moves the timestamp on. */
    method Give(frames: nat, requested: nat, next: int) returns (samples: seq<real>)
      requires Valid() && reader && Whole(requested, channels) && (|decoded| - offset >= requested || eos)
      requires AdvanceTimestamp100ns(nextTime, frames, rate) == Some(next)
      modifies this`decoded, this`offset, this`delivered, this`output, this`nextTime, this`blocks
      ensures Valid() && blocks == old(blocks) + [frames] && output == old(output) + samples && nextTime == next
      ensures |samples| == requested && HandsOut(old(Undelivered()), samples, Undelivered(), eos)
      ensures decoded == [] <==> Undelivered() == []
    {
      samples := HandOut(requested);
      AdvanceTime(frames, next);
    }

    /** Hands out a block that ends at `next`, and counts it. */
    method Emit(frames: nat, requested: nat, next: int) returns (block: Block)
      requires Valid() && reader && Whole(requested, channels) && (|decoded| - offset >= requested || eos)
      requires AdvanceTimestamp100ns(nextTime, frames, rate) == Some(next)
      modifies this`decoded, this`offset, this`delivered, this`output, this`nextTime, this`blocks
      ensures Valid() && blocks == old(blocks) + [frames] && output == old(output) + block.samples
      ensures WholeMilliseconds(block.duration, duration)
      ensures Serves(old(Undelivered()), requested, block, Undelivered(), eos, nextTime)
    {
      ghost var pending := Undelivered();
      var samples := Give(frames, requested, next);
      block := Block(samples, ToMilliseconds(nextTime), ToMilliseconds(duration), eos && decoded == []);
      ServesBy(pending, block, Undelivered(), eos, nextTime);
    }

    method RequestedSamples(frames: nat) returns (count: Option<nat>)
      ensures count.Some? ==> channels > 0 && count.value == frames * channels && Whole(count.value, channels)
      ensures count.None? <==> channels == 0 || frames * channels > maxSize
    {
      count := CheckedSampleCount(frames, channels, maxSize);
      CheckedSampleCountIsExact(frames, channels, maxSize);
      if channels > 0 { WholeProduct(frames, channels); }
    }

    /** A block's position trails the exact time of the frames handed out since the last anchor by
        less than a tick a block. */
    lemma PositionTrailsExactTime()
      requires Valid() && reader && blocks != []
      ensures nextTime <= anchor + TotalFrames(blocks) * TICKS_PER_SECOND / rate < nextTime + |blocks|
    {
      BlocksTrailExactTime(blocks, rate);
    }

    /** The samples of a block: what the cache has, then silence. */
    method HandOut(requested: nat) returns (samples: seq<real>)
      requires Valid() && reader && Whole(requested, channels) && (|decoded| - offset >= requested || eos)
      modifies this`decoded, this`offset, this`delivered, this`output
      ensures Valid() && |samples| == requested && HandsOut(old(Undelivered()), samples, Undelivered(), eos)
      ensures output == old(output) + samples
      ensures decoded == [] <==> Undelivered() == []
    {
      var copied: nat;
      samples, copied := Cached(requested);
      JoinsInTurn(output, Undelivered()[..copied], Zeros(requested - copied));
      Deliver(copied);
      Pad(requested - copied);
    }

    /** The block as the cache has it, and how many of its samples the cache has. */
    method Cached(requested: nat) returns (samples: seq<real>, copied: nat)
      requires CacheValid() && reader && Whole(requested, channels) && (|decoded| - offset >= requested || eos)
      ensures copied <= |decoded| - offset && copied <= requested && Whole(copied, channels)
      ensures samples == Undelivered()[..copied] + Zeros(requested - copied)
      ensures HandsOut(Undelivered(), samples, Undelivered()[copied..], eos)
      ensures copied < requested ==> eos && copied == |Undelivered()|
    {
      var available := |decoded| - offset;
      copied := if available < requested then available else requested;
      WholeDifference(|decoded|, offset, channels);
      samples := decoded[offset..][..copied] + Zeros(requested - copied);
      HandsOutPart(Undelivered(), copied, requested, eos);
    }

    /** Counts silence behind the last sample of the source. */
    ghost method Pad(n: nat)
      requires Valid() && (n > 0 ==> eos && decoded == [])
      modifies this`output
      ensures Valid() && output == old(output) + Zeros(n)
    {
      output := output + Zeros(n);
    }

    /** However the source cuts its packets and the callers their blocks, and whatever calls fail in
        between, the blocks since the last open or seek, in a row, are the packets kept, in order,
        followed by silence only once the source has ended and all of them are out; what is not out
        yet is in the cache. Unless the cache is torn, these are all the packets the reader gave. */
    lemma BlocksAreTheSource() returns (silence: nat)
      requires Valid()
      ensures output + Undelivered() == appended + Zeros(silence)
      ensures !torn ==> output + Undelivered() == passed + Zeros(silence)
      ensures silence > 0 ==> eos && Undelivered() == []
    {
      silence := |output| - |delivered|;
      if silence > 0 {
        assert appended == delivered;
      } else {
        assert output == delivered;
      }
    }
  }

  lemma DropsFront(decoded: seq<real>, offset: nat, n: nat, channels: nat)
    requires channels > 0 && offset + n <= |decoded| && Whole(offset, channels) && Whole(n, channels)
    ensures Whole(offset + n, channels) && decoded[offset..][n..] == decoded[offset + n..]
    ensures |decoded| == offset + n ==> decoded[offset..][n..] == []
  {
    WholeSum(offset, n, channels);
  }

  lemma HandsOutPart(pending: seq<real>, n: nat, requested: nat, eos: bool)
    requires n == (if |pending| < requested then |pending| else requested) && (n < requested ==> eos)
    ensures HandsOut(pending, pending[..n] + Zeros(requested - n), pending[n..], eos)
  {
  }

  /** `output` is `delivered` with silence behind it, and none before the source has `ended`. */
  ghost predicate Padded(output: seq<real>, delivered: seq<real>, ended: bool) {
    && |delivered| <= |output| && output == delivered + Zeros(|output| - |delivered|)
    && (|delivered| < |output| ==> ended)
  }

  /** What was appended is delivered or pending, in order, and the output is what was delivered. */
  ghost predicate Accounted(appended: seq<real>, delivered: seq<real>, pending: seq<real>, output: seq<real>,
                            ended: bool) {
    delivered + pending == appended && Padded(output, delivered, ended)
  }

  lemma AccountedFurther(appended: seq<real>, delivered: seq<real>, pending: seq<real>, output: seq<real>, n: nat,
                         ended: bool, after: bool)
    requires Accounted(appended, delivered, pending, output, ended) && n <= |pending|
    requires ended ==> pending == [] && after
    ensures Accounted(appended, delivered + pending[..n], pending[n..], output + pending[..n], after)
  {
    assert pending == pending[..n] + pending[n..];
    JoinsInTurn(delivered, pending[..n], pending[n..]);
    PaddedFurther(output, delivered, ended, pending[..n]);
  }

  lemma PaddedFurther(output: seq<real>, delivered: seq<real>, ended: bool, part: seq<real>)
    requires Padded(output, delivered, ended) && (ended ==> part == [])
    ensures Padded(output + part, delivered + part, ended)
  {
    if |delivered| < |output| {
      assert part == [] && output + part == output && delivered + part == delivered;
    } else {
      assert output == delivered;
    }
  }

  lemma JoinsInTurn(a: seq<real>, b: seq<real>, c: seq<real>)
    ensures (a + b) + c == a + (b + c)
  {
  }

  /** A block of `size` samples from `pending` that leaves `rest`: it is the last one exactly when the
      source has ended and nothing is left, and bears the time at its end. */
  ghost predicate Serves(pending: seq<real>, size: nat, b: Block, rest: seq<real>, eos: bool, time: int) {
    && |b.samples| == size && HandsOut(pending, b.samples, rest, eos)
    && (b.endOfStream <==> eos && rest == []) && WholeMilliseconds(b.position, time)
  }

  lemma ServesBy(pending: seq<real>, b: Block, rest: seq<real>, eos: bool, time: int)
    requires HandsOut(pending, b.samples, rest, eos) && (b.endOfStream <==> eos && rest == [])
    requires WholeMilliseconds(b.position, time)
    ensures Serves(pending, |b.samples|, b, rest, eos, time)
  {
  }

  /** `samples` takes as much of `pending` as fits and leaves `rest`; silence fills it up only
      when the source has ended. */
  ghost predicate HandsOut(pending: seq<real>, samples: seq<real>, rest: seq<real>, eos: bool) {
    var n := if |pending| < |samples| then |pending| else |samples|;
    && samples == pending[..n] + Zeros(|samples| - n) && rest == pending[n..]
    && (n < |samples| ==> eos)
  }
}

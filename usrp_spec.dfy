/** Values, device script and specification functions for the USRP receive
    block (gr::uhd::usrp_source_impl). The UHD driver is replaced by a script
    of receive results that the block consumes one per recv call, and by a
    log of every stream creation, stream command and receive the block
    makes. */
module UsrpSpec {

  /** 2^64: nitems_written and tag offsets are uint64_t, so offset arithmetic
      wraps modulo this value. */
  const U64: int := 0x1_0000_0000_0000_0000

  /** Size in bytes of the scratch buffer flush receives into, per channel. */
  const FlushBytes: nat := 4096

  /** rx_metadata_t::error_code, as far as the block distinguishes it. */
  datatype ErrorCode = NoError | Timeout | Overflow | OtherError(code: int)

  /** uhd::time_spec_t: whole and fractional seconds, stored and echoed only. */
  datatype TimeSpec = TimeSpec(fullSecs: int, fracSecs: real)

  datatype Complex = Complex(re: real, im: real)

  const Zero := Complex(0.0, 0.0)

  /** What the driver reports for one recv call: the metadata, the number of
      samples it wrote, and per channel the samples themselves. */
  datatype RecvResult = RecvResult(
    error: ErrorCode,
    numSamps: nat,
    endOfBurst: bool,
    time: TimeSpec,
    samples: seq<seq<Complex>>)

  /** A device with nothing left to deliver times out with no samples. */
  const Exhausted := RecvResult(Timeout, 0, false, TimeSpec(0, 0.0), [])

  datatype StreamMode = StartContinuous | StopContinuous | NumSampsAndDone

  /** The time_spec of a stream command: left at its default, a pending start
      time, or the device time read just before plus the fixed 0.1 s delay. */
  datatype CmdTime = DefaultTime | At(t: TimeSpec) | AfterDelay(now: TimeSpec)

  /** uhd::stream_cmd_t */
  datatype StreamCmd = StreamCmd(mode: StreamMode, numSamps: nat, streamNow: bool, time: CmdTime)

  /** Every stream creation, stream command and receive, in order. */
  datatype DeviceEvent =
    | GetRxStream
    | IssueCmd(cmd: StreamCmd, chan: nat)
    | Recv(maxSamps: nat, timeout: real, onePacket: bool)

  datatype TagKey = TimeKey(time: TimeSpec) | RateKey(rate: real) | FreqKey(freq: real) | EobKey

  /** A stream tag: output channel, absolute offset, key and value. */
  datatype Tag = Tag(chan: nat, offset: nat, key: TagKey)

  function Min(a: nat, b: nat): nat
  {
    if a <= b then a else b
  }

  /** The result of one recv call asking for at most `maxSamps` samples: the
      next scripted result, with its count capped at the request. */
  function Deliver(s: seq<RecvResult>, maxSamps: nat): (r: RecvResult)
    ensures r.numSamps <= maxSamps
    ensures s == [] ==> r.error == Timeout && r.numSamps == 0 && !r.endOfBurst
    ensures s != [] ==> r.error == s[0].error && r.endOfBurst == s[0].endOfBurst && r.time == s[0].time
    ensures s != [] && s[0].numSamps <= maxSamps ==> r == s[0]
  {
    if s == [] then Exhausted else s[0].(numSamps := Min(s[0].numSamps, maxSamps))
  }

  /** The script after one recv call. */
  function Consume(s: seq<RecvResult>): seq<RecvResult>
  {
    if s == [] then [] else s[1..]
  }

  /** The receive phase of work: a zero-timeout receive and, only when that
      times out, one single-packet receive with a 0.1 s timeout. */
  datatype Received = Received(result: RecvResult, rest: seq<RecvResult>, events: seq<DeviceEvent>)

  function ReceivePhase(s: seq<RecvResult>, noutput: nat): (a: Received)
    ensures a.result.numSamps <= noutput
    ensures |a.rest| <= |s| && (a.result.error != Timeout ==> |a.rest| < |s|)
    ensures Deliver(s, noutput).error == Timeout <==> |a.events| == 2
    ensures Deliver(s, noutput).error != Timeout ==> a.events == [Recv(noutput, 0.0, false)] && a.result == Deliver(s, noutput)
    ensures Deliver(s, noutput).error == Timeout ==>
      a.events == [Recv(noutput, 0.0, false), Recv(noutput, 0.1, true)] && a.result == Deliver(Consume(s), noutput)
  {
    var first := Deliver(s, noutput);
    if first.error == Timeout then
      Received(Deliver(Consume(s), noutput), Consume(Consume(s)),
               [Recv(noutput, 0.0, false), Recv(noutput, 0.1, true)])
    else
      Received(first, Consume(s), [Recv(noutput, 0.0, false)])
  }

  /** The TIME, RATE and FREQ tags on channels 0 .. n-1, all at `offset`. */
  function TimeBundle(n: nat, offset: nat, t: TimeSpec, rate: real, freq: real): seq<Tag>
  {
    if n == 0 then []
    else
      var ch := n - 1;
      TimeBundle(ch, offset, t, rate, freq) + [Tag(ch, offset, TimeKey(t)), Tag(ch, offset, RateKey(rate)), Tag(ch, offset, FreqKey(freq))]
  }

  /** The offset of the EOB tag: nitems_written(i) + num_samps - 1 computed in
      uint64_t, so an empty burst at offset 0 wraps to 2^64 - 1. */
  function EobOffset(written: nat, numSamps: nat): nat
  {
    (written + numSamps - 1) % U64
  }

  /** The EOB tags on channels 0 .. n-1, at nitems_written(i) + num_samps - 1
      for each channel i; every output's counter equals `written`. */
  function EobTags(written: nat, numSamps: nat, n: nat): seq<Tag>
  {
    if n == 0 then []
    else EobTags(written, numSamps, n - 1) + [Tag(n - 1, EobOffset(written, numSamps), EobKey)]
  }

  /** One stream command issued to each physical channel of the map, in order. */
  function Broadcast(cmd: StreamCmd, chans: seq<nat>): seq<DeviceEvent>
  {
    if chans == [] then []
    else Broadcast(cmd, chans[..|chans| - 1]) + [IssueCmd(cmd, chans[|chans| - 1])]
  }

  /** Outcome of one call of work. */
  datatype Outcome = Outcome(produced: nat, tagNow: bool, rest: seq<RecvResult>, events: seq<DeviceEvent>, tags: seq<Tag>)

  /** The end of work for a result that is neither a timeout nor an overflow:
      EOB tags after whatever was tagged, the flag re-armed on end of burst,
      and the reported count returned. */
  function Conclude(r: RecvResult, flag: bool, bundle: seq<Tag>, a: Received, nchan: nat, written: nat): Outcome
  {
    var eob := if r.endOfBurst then EobTags(written, r.numSamps, nchan) else [];
    Outcome(r.numSamps, flag || r.endOfBurst, a.rest, a.events, bundle + eob)
  }

  /** work, as a function of the flag, the device script, the request, the
      number of channels, the write counter (nitems_written, the same on every
      output) and the stored rate and frequency. */
  function Pump(tagNow: bool, s: seq<RecvResult>, noutput: nat, nchan: nat, written: nat, rate: real, freq: real): (o: Outcome)
    ensures o.produced <= noutput
    ensures |o.rest| <= |s|
    decreases |s|
  {
    var a := ReceivePhase(s, noutput);
    var r := a.result;
    match r.error
    case Timeout => Outcome(0, tagNow, a.rest, a.events, [])
    case Overflow =>
      var o := Pump(true, a.rest, noutput, nchan, written, rate, freq);
      o.(events := a.events + o.events)
    case NoError =>
      var bundle := if tagNow then TimeBundle(nchan, written, r.time, rate, freq) else [];
      Conclude(r, false, bundle, a, nchan, written)
    case OtherError(_) => Conclude(r, tagNow, [], a, nchan, written)
  }

  /** Whether the receive phase of this call of work reported an overflow. */
  predicate Overflowed(s: seq<RecvResult>, noutput: nat)
  {
    ReceivePhase(s, noutput).result.error == Overflow
  }

  /** The result work finally acts on, after re-running on every overflow. */
  function FinalResult(s: seq<RecvResult>, noutput: nat): (r: RecvResult)
    ensures r.error != Overflow
    ensures r.numSamps <= noutput
    decreases |s|
  {
    var a := ReceivePhase(s, noutput);
    if a.result.error == Overflow then FinalResult(a.rest, noutput) else a.result
  }

  /** Closed form of work: what it returns, tags and leaves in the flag depends
      only on the final result and on whether the flag was owed on entry or
      re-armed by an overflow. */
  lemma {:induction false} PumpSummary(tagNow: bool, s: seq<RecvResult>, noutput: nat, nchan: nat, written: nat, rate: real, freq: real)
    ensures var o := Pump(tagNow, s, noutput, nchan, written, rate, freq);
      var f := FinalResult(s, noutput);
      var owed := tagNow || Overflowed(s, noutput);
      var bundle := if f.error == NoError && owed then TimeBundle(nchan, written, f.time, rate, freq) else [];
      var eob := if f.endOfBurst then EobTags(written, f.numSamps, nchan) else [];
      && o.produced == (if f.error == Timeout then 0 else f.numSamps)
      && o.tags == (if f.error == Timeout then [] else bundle + eob)
      && o.tagNow == (
           if f.error == Timeout then owed
           else if f.error == NoError then f.endOfBurst
           else owed || f.endOfBurst)
    decreases |s|
  {
    var a := ReceivePhase(s, noutput);
    if a.result.error == Overflow {
      PumpSummary(true, a.rest, noutput, nchan, written, rate, freq);
    }
  }

  /** A successful final result with the flag owed carries TIME, RATE and FREQ
      on every channel at nitems_written(0), ahead of any EOB tag; the flag is
      then clear unless the burst ended. Without the flag owed, no such tag. */
  lemma PumpSuccessTags(tagNow: bool, s: seq<RecvResult>, noutput: nat, nchan: nat, written: nat, rate: real, freq: real)
    requires FinalResult(s, noutput).error == NoError
    ensures var o := Pump(tagNow, s, noutput, nchan, written, rate, freq);
      var f := FinalResult(s, noutput);
      && ((tagNow || Overflowed(s, noutput)) ==> TimeBundle(nchan, written, f.time, rate, freq) <= o.tags)
      && (!(tagNow || Overflowed(s, noutput)) ==> forall t :: t in o.tags ==> t.key == EobKey)
      && o.tagNow == f.endOfBurst
      && o.produced == f.numSamps
  {
    PumpSummary(tagNow, s, noutput, nchan, written, rate, freq);
    var f := FinalResult(s, noutput);
    if !(tagNow || Overflowed(s, noutput)) && f.endOfBurst {
      EobTagsContent(written, f.numSamps, nchan);
    }
  }

  /** An overflow re-arms the flag, so a successful result after it in the
      same call always carries the TIME/RATE/FREQ bundle. */
  lemma PumpOverflowRetags(tagNow: bool, s: seq<RecvResult>, noutput: nat, nchan: nat, written: nat, rate: real, freq: real)
    requires Overflowed(s, noutput) && FinalResult(s, noutput).error == NoError
    ensures TimeBundle(nchan, written, FinalResult(s, noutput).time, rate, freq)
      <= Pump(tagNow, s, noutput, nchan, written, rate, freq).tags
  {
    PumpSuccessTags(tagNow, s, noutput, nchan, written, rate, freq);
  }

  /** A final timeout returns 0 and adds no tag, not even EOB; the flag is
      as on entry unless an overflow in this call re-armed it. */
  lemma PumpTimeout(tagNow: bool, s: seq<RecvResult>, noutput: nat, nchan: nat, written: nat, rate: real, freq: real)
    requires FinalResult(s, noutput).error == Timeout
    ensures var o := Pump(tagNow, s, noutput, nchan, written, rate, freq);
      o.produced == 0 && o.tags == [] && o.tagNow == (tagNow || Overflowed(s, noutput))
  {
    PumpSummary(tagNow, s, noutput, nchan, written, rate, freq);
  }

  /** An unrecognised error code neither aborts nor clears the flag: the
      reported count is returned and only EOB tags can be added. */
  lemma PumpOtherError(tagNow: bool, s: seq<RecvResult>, noutput: nat, nchan: nat, written: nat, rate: real, freq: real)
    requires FinalResult(s, noutput).error.OtherError?
    ensures var o := Pump(tagNow, s, noutput, nchan, written, rate, freq);
      var f := FinalResult(s, noutput);
      && o.produced == f.numSamps
      && (tagNow ==> o.tagNow)
      && o.tags == (if f.endOfBurst then EobTags(written, f.numSamps, nchan) else [])
  {
    PumpSummary(tagNow, s, noutput, nchan, written, rate, freq);
  }

  /** End of burst on a non-timeout result: an EOB tag on every channel i at
      nitems_written(i) + num_samps - 1, and the flag set on return. */
  lemma PumpEndOfBurst(tagNow: bool, s: seq<RecvResult>, noutput: nat, nchan: nat, written: nat, rate: real, freq: real)
    requires FinalResult(s, noutput).error != Timeout && FinalResult(s, noutput).endOfBurst
    ensures var o := Pump(tagNow, s, noutput, nchan, written, rate, freq);
      var f := FinalResult(s, noutput);
      && o.tagNow
      && (forall i :: 0 <= i < nchan ==> Tag(i, EobOffset(written, f.numSamps), EobKey) in o.tags)
      && (forall t :: t in o.tags && t.key == EobKey ==> t.chan < nchan && t.offset == EobOffset(written, f.numSamps))
  {
    PumpSummary(tagNow, s, noutput, nchan, written, rate, freq);
    var f := FinalResult(s, noutput);
    EobTagsContent(written, f.numSamps, nchan);
    if f.error == NoError && (tagNow || Overflowed(s, noutput)) {
      TimeBundleContent(nchan, written, f.time, rate, freq);
    }
  }

  /** A TIME, RATE or FREQ tag of one of the channels 0 .. n-1 at `offset`. */
  predicate BundleTag(g: Tag, n: nat, offset: nat, t: TimeSpec, rate: real, freq: real)
  {
    g.chan < n && g.offset == offset && (g.key == TimeKey(t) || g.key == RateKey(rate) || g.key == FreqKey(freq))
  }

  /** The TIME/RATE/FREQ bundle holds three tags per channel, and exactly the
      TIME, RATE and FREQ tags of channels 0 .. n-1 at the given offset. */
  lemma {:induction false} TimeBundleContent(n: nat, offset: nat, t: TimeSpec, rate: real, freq: real)
    ensures |TimeBundle(n, offset, t, rate, freq)| == 3 * n
    ensures forall g :: g in TimeBundle(n, offset, t, rate, freq) <==> BundleTag(g, n, offset, t, rate, freq)
  {
    if n > 0 {
      var ch := n - 1;
      TimeBundleContent(ch, offset, t, rate, freq);
      var prev := TimeBundle(ch, offset, t, rate, freq);
      var last := [Tag(ch, offset, TimeKey(t)), Tag(ch, offset, RateKey(rate)), Tag(ch, offset, FreqKey(freq))];
      assert TimeBundle(n, offset, t, rate, freq) == prev + last;
      forall g
        ensures g in prev + last <==> BundleTag(g, n, offset, t, rate, freq)
      {
        assert g in prev + last <==> g in prev || g in last;
        assert g in last <==> BundleTag(g, n, offset, t, rate, freq) && g.chan == ch;
      }
    }
  }

  /** One EOB tag per channel, all at the same offset. */
  lemma {:induction false} EobTagsContent(written: nat, numSamps: nat, n: nat)
    ensures |EobTags(written, numSamps, n)| == n
    ensures forall g :: g in EobTags(written, numSamps, n) <==>
      g.chan < n && g.key == EobKey && g.offset == EobOffset(written, numSamps)
  {
    if n > 0 {
      EobTagsContent(written, numSamps, n - 1);
    }
  }

  /** The EOB tag marks the last sample of the call when samples arrived; with
      no samples it lands one before the write counter, wrapping to 2^64 - 1
      at the start of the stream. */
  lemma EobOffsetPlacement(written: nat, numSamps: nat)
    requires written + numSamps <= U64
    ensures numSamps >= 1 ==> EobOffset(written, numSamps) == written + numSamps - 1
    ensures numSamps == 0 && written >= 1 ==> EobOffset(written, numSamps) == written - 1
    ensures numSamps == 0 && written == 0 ==> EobOffset(written, numSamps) == U64 - 1
  {
  }

  /** A stream command goes to every entry of the channel map exactly once,
      in the order of the map. */
  lemma {:induction false} BroadcastContent(cmd: StreamCmd, chans: seq<nat>)
    ensures |Broadcast(cmd, chans)| == |chans|
    ensures forall i :: 0 <= i < |chans| ==> Broadcast(cmd, chans)[i] == IssueCmd(cmd, chans[i])
    decreases |chans|
  {
    if chans != [] {
      BroadcastContent(cmd, chans[..|chans| - 1]);
    }
  }

  /** The script left after flush: receive until the first TIMEOUT. */
  function Drain(s: seq<RecvResult>): (r: seq<RecvResult>)
    ensures |r| < |s| || s == []
    decreases |s|
  {
    if s == [] then [] else if s[0].error == Timeout then s[1..] else Drain(s[1..])
  }

  /** The number of recv calls flush makes. */
  function DrainCount(s: seq<RecvResult>): (n: nat)
    ensures 1 <= n <= |s| + 1
    decreases |s|
  {
    if s == [] || s[0].error == Timeout then 1 else 1 + DrainCount(s[1..])
  }

  /** `n` copies of one driver call. */
  function Repeat(e: DeviceEvent, n: nat): seq<DeviceEvent>
  {
    seq(n, _ => e)
  }

  /** The driver calls flush makes: one zero-timeout receive into the scratch
      buffer per result it consumes. */
  function FlushEvents(s: seq<RecvResult>, flushItems: nat): seq<DeviceEvent>
  {
    Repeat(Recv(flushItems, 0.0, false), DrainCount(s))
  }

  /** Flush exits exactly at the first TIMEOUT: when result `k` is the first
      timeout it makes k + 1 receives and leaves what follows it; when there
      is none it consumes the whole script and stops at the exhausted device. */
  lemma {:induction false} DrainStopsAtFirstTimeout(s: seq<RecvResult>, k: nat)
    requires k <= |s|
    requires forall j :: 0 <= j < k ==> s[j].error != Timeout
    requires k < |s| ==> s[k].error == Timeout
    ensures Drain(s) == (if k < |s| then s[k + 1..] else [])
    ensures DrainCount(s) == k + 1
    decreases k
  {
    if k > 0 {
      DrainStopsAtFirstTimeout(s[1..], k - 1);
    }
  }

  /** The command start issues: continuous streaming at the pending start time
      when one is set, otherwise 0.1 s after the current device time. */
  function StartCommand(streamNow: bool, startTimeSet: bool, startTime: TimeSpec, now: TimeSpec): StreamCmd
  {
    StreamCmd(StartContinuous, 0, streamNow, if startTimeSet then At(startTime) else AfterDelay(now))
  }

  const StopCommand := StreamCmd(StopContinuous, 0, true, DefaultTime)

  /** The command finite acquisition issues: exactly `nsamps` samples, always
      0.1 s after the current device time, whatever start time is pending. */
  function FiniteCommand(nsamps: nat, streamNow: bool, now: TimeSpec): StreamCmd
  {
    StreamCmd(NumSampsAndDone, nsamps, streamNow, AfterDelay(now))
  }

  /** The script finite acquisition receives from: after the flush of the
      start/stop kludge (only without a stream) and its own flush. */
  function AcquisitionScript(hadStream: bool, s: seq<RecvResult>): seq<RecvResult>
  {
    Drain(if hadStream then s else Drain(s))
  }

  /** The samples the driver wrote for channel `i`: always exactly the
      reported count, padded with zeros where the script holds fewer. */
  function Row(r: RecvResult, i: nat): (row: seq<Complex>)
    ensures |row| == r.numSamps
    ensures i < |r.samples| && r.numSamps <= |r.samples[i]| ==> row == r.samples[i][..r.numSamps]
  {
    if i < |r.samples| && r.numSamps <= |r.samples[i]| then r.samples[i][..r.numSamps]
    else seq(r.numSamps, _ => Zero)
  }

  /** The buffers finite acquisition returns: one per channel, each resized to
      the count of the single receive. */
  function Acquired(r: RecvResult, nchan: nat): (b: seq<seq<Complex>>)
    ensures |b| == nchan
    ensures forall i :: 0 <= i < nchan ==> |b[i]| == r.numSamps
  {
    seq(nchan, i requires 0 <= i < nchan => Row(r, i))
  }

  /** Finite acquisition returns one buffer per channel, all of one length no
      greater than the request, and exactly the request when the device
      delivers at least that many samples. */
  lemma AcquiredShape(s: seq<RecvResult>, hadStream: bool, nsamps: nat, nchan: nat)
    ensures var b := Acquired(Deliver(AcquisitionScript(hadStream, s), nsamps), nchan);
      && |b| == nchan
      && (forall i, j :: 0 <= i < nchan && 0 <= j < nchan ==> |b[i]| == |b[j]| <= nsamps)
      && (var t := AcquisitionScript(hadStream, s);
          t != [] && t[0].numSamps >= nsamps ==> forall i :: 0 <= i < nchan ==> |b[i]| == nsamps)
  {
  }

}

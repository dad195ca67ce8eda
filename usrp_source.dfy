/** The USRP receive block (gr::uhd::usrp_source_impl) as a class over its
    mutable state: the tag-needed flag, the one-shot start time, the stream
    handle and the write counters, driving a scripted device. */
module UsrpSource {
  import opened UsrpSpec

  datatype Result<T> = Success(value: T) | RuntimeError(message: string)

  /** Concatenation of driver logs regroups freely. */
  lemma AppendAssoc<T>(x: seq<T>, y: seq<T>, z: seq<T>)
    ensures x + (y + z) == (x + y) + z
  {
  }

  class Block {
    /** _stream_args.channels: logical channel index to device channel */
    var channelMap: seq<nat>
    /** bytes per item of the host sample format (_stream_args.cpu_format) */
    const cpuBytesPerItem: nat
    /** _tag_now */
    var tagNow: bool
    /** _start_time_set and _start_time */
    var startTimeSet: bool
    var startTime: TimeSpec
    /** _stream_now */
    var streamNow: bool
    /** whether _rx_stream holds a stream */
    var hasStream: bool
    /** _samp_rate and _center_freq, echoed into the RATE and FREQ tags */
    var sampRate: real
    var centerFreq: real
    /** nitems_written(i), the same for every output i: the scheduler
        advances all outputs of the block by the count work returns */
    var written: nat
    /** the device: the results its future recv calls return, in order */
    var script: seq<RecvResult>
    /** every stream creation, stream command and receive */
    var deviceLog: seq<DeviceEvent>
    /** every tag added to the output streams */
    var tags: seq<Tag>

    /** At least one channel, and a host sample format of positive size. */
    ghost predicate Valid()
      reads this
    {
      |channelMap| >= 1 && cpuBytesPerItem >= 1
    }

    /** Items of the flush scratch buffer: 4096 bytes divided by the item size. */
    function FlushItems(): nat
      requires cpuBytesPerItem >= 1
    {
      FlushBytes / cpuBytesPerItem
    }

    /** The block as constructed: flag clear, no stream, rate and frequency
        read back from the device, nothing written yet. */
    constructor (channelMap: seq<nat>, cpuBytesPerItem: nat, streamNow: bool,
                 sampRate: real, centerFreq: real, script: seq<RecvResult>)
      requires |channelMap| >= 1 && cpuBytesPerItem >= 1
      ensures Valid()
      ensures this.channelMap == channelMap && this.cpuBytesPerItem == cpuBytesPerItem
      ensures this.streamNow == streamNow && this.sampRate == sampRate && this.centerFreq == centerFreq
      ensures this.script == script
      ensures !tagNow && !startTimeSet && !hasStream
      ensures written == 0 && deviceLog == [] && tags == []
    {
      this.channelMap := channelMap;
      this.cpuBytesPerItem := cpuBytesPerItem;
      this.streamNow := streamNow;
      this.sampRate := sampRate;
      this.centerFreq := centerFreq;
      this.script := script;
      tagNow := false;
      startTimeSet := false;
      startTime := TimeSpec(0, 0.0);
      hasStream := false;
      written := 0;
      deviceLog := [];
      tags := [];
    }

    /** One recv call on the stream: consumes the next scripted result. */
    method RecvOnce(maxSamps: nat, timeout: real, onePacket: bool) returns (r: RecvResult)
      modifies this`script, this`deviceLog
      ensures r == Deliver(old(script), maxSamps)
      ensures script == Consume(old(script))
      ensures deviceLog == old(deviceLog) + [Recv(maxSamps, timeout, onePacket)]
    {
      r := Deliver(script, maxSamps);
      script := Consume(script);
      deviceLog := deviceLog + [Recv(maxSamps, timeout, onePacket)];
    }

    /** issue_stream_cmd: the command goes to every mapped channel in order. */
    method IssueStreamCmd(cmd: StreamCmd)
      modifies this`deviceLog
      ensures deviceLog == old(deviceLog) + Broadcast(cmd, channelMap)
    {
      for i := 0 to |channelMap|
        modifies this`deviceLog
        invariant deviceLog == old(deviceLog) + Broadcast(cmd, channelMap[..i])
      {
        assert channelMap[..i + 1][..i] == channelMap[..i];
        deviceLog := deviceLog + [IssueCmd(cmd, channelMap[i])];
      }
      assert channelMap[..|channelMap|] == channelMap;
    }

    /** set_start_time: a one-shot start time for the next start, which then
        no longer streams immediately. */
    method SetStartTime(time: TimeSpec)
      modifies this`startTime, this`startTimeSet, this`streamNow
      ensures startTime == time && startTimeSet && !streamNow
    {
      startTime := time;
      startTimeSet := true;
      streamNow := false;
    }

    /** set_samp_rate: stores the rate the device reports after the change and
        owes a new TIME/RATE/FREQ bundle. */
    method SetSampRate(reportedRate: real)
      modifies this`sampRate, this`tagNow
      ensures sampRate == reportedRate && tagNow
    {
      sampRate := reportedRate;
      tagNow := true;
    }

    /** set_center_freq: stores the frequency the device reports after tuning
        and owes a new TIME/RATE/FREQ bundle. */
    method SetCenterFreq(reportedFreq: real)
      modifies this`centerFreq, this`tagNow
      ensures centerFreq == reportedFreq && tagNow
    {
      centerFreq := reportedFreq;
      tagNow := true;
    }

    /** set_stream_args: takes the new channel map and drops the stream, so the
        next start creates a new one. */
    method SetStreamArgs(channels: seq<nat>)
      requires Valid() && |channels| == |channelMap|
      modifies this`channelMap, this`hasStream
      ensures Valid() && channelMap == channels && !hasStream
    {
      channelMap := channels;
      hasStream := false;
    }

    /** start: creates the stream only when there is none, consumes the pending
        start time, issues START_CONTINUOUS to every mapped channel and owes a
        TIME/RATE/FREQ bundle. */
    method Start(now: TimeSpec) returns (ok: bool)
      requires Valid()
      modifies this`hasStream, this`startTimeSet, this`tagNow, this`deviceLog
      ensures Valid()
      ensures ok && hasStream && tagNow && !startTimeSet
      ensures deviceLog == old(deviceLog) + (if old(hasStream) then [] else [GetRxStream])
        + Broadcast(StartCommand(streamNow, old(startTimeSet), startTime, now), channelMap)
    {
      if !hasStream {
        deviceLog := deviceLog + [GetRxStream];
        hasStream := true;
      }
      var cmd := StreamCmd(StartContinuous, 0, streamNow, DefaultTime);
      if startTimeSet {
        startTimeSet := false;
        cmd := cmd.(time := At(startTime));
      } else {
        cmd := cmd.(time := AfterDelay(now));
      }
      IssueStreamCmd(cmd);
      tagNow := true;
      ok := true;
    }

    /** flush: receive into a scratch buffer until the first TIMEOUT. */
    method Flush()
      requires Valid() && hasStream
      modifies this`script, this`deviceLog
      ensures script == Drain(old(script))
      ensures deviceLog == old(deviceLog) + FlushEvents(old(script), FlushItems())
    {
      var call := Recv(FlushItems(), 0.0, false);
      ghost var k := 0;
      while true
        invariant Drain(script) == Drain(old(script))
        invariant DrainCount(old(script)) == k + DrainCount(script)
        invariant deviceLog == old(deviceLog) + Repeat(call, k)
        decreases |script|
      {
        var r := RecvOnce(FlushItems(), 0.0, false);
        assert Repeat(call, k) + [call] == Repeat(call, k + 1);
        k := k + 1;
        if r.error == Timeout {
          break;
        }
      }
    }

    /** stop: STOP_CONTINUOUS to every mapped channel, then flush. */
    method Stop() returns (ok: bool)
      requires Valid() && hasStream
      modifies this`script, this`deviceLog
      ensures ok
      ensures script == Drain(old(script))
      ensures deviceLog == old(deviceLog) + Broadcast(StopCommand, channelMap) + FlushEvents(old(script), FlushItems())
    {
      IssueStreamCmd(StopCommand);
      Flush();
      ok := true;
    }

    /** The buffers cut to the first `count` samples each. */
    static method TruncateAll(bufs: seq<seq<Complex>>, count: nat) returns (out: seq<seq<Complex>>)
      requires forall i :: 0 <= i < |bufs| ==> count <= |bufs[i]|
      ensures |out| == |bufs|
      ensures forall i :: 0 <= i < |bufs| ==> out[i] == bufs[i][..count]
    {
      out := bufs;
      for i := 0 to |bufs|
        invariant |out| == |bufs|
        invariant forall j :: 0 <= j < i ==> out[j] == bufs[j][..count]
        invariant forall j :: i <= j < |bufs| ==> out[j] == bufs[j]
      {
        out := out[i := out[i][..count]];
      }
    }

    /** The acquisition proper: NUM_SAMPS_AND_DONE to every mapped channel,
        one receive with a 1 s timeout into zeroed buffers of `nsamps`
        samples, then every buffer resized to the count received. */
    method Collect(nsamps: nat, now: TimeSpec) returns (samps: seq<seq<Complex>>)
      requires Valid() && hasStream
      modifies this`script, this`deviceLog
      ensures samps == Acquired(Deliver(old(script), nsamps), |channelMap|)
      ensures script == Consume(old(script))
      ensures deviceLog == old(deviceLog) + Broadcast(FiniteCommand(nsamps, streamNow, now), channelMap)
        + [Recv(nsamps, 1.0, false)]
    {
      var nchan := |channelMap|;
      samps := seq(nchan, _ => seq(nsamps, _ => Zero));
      IssueStreamCmd(FiniteCommand(nsamps, streamNow, now));
      var r := RecvOnce(nsamps, 1.0, false);
      var count := r.numSamps;
      // the driver writes the received samples at the front of each buffer
      samps := seq(nchan, i requires 0 <= i < nchan => Row(r, i) + samps[i][count..]);
      samps := TruncateAll(samps, count);
      assert forall i :: 0 <= i < nchan ==> samps[i] == Row(r, i);
    }

    /** finite_acquisition_v: a start/stop cycle when there is no stream, a
        flush, then the acquisition proper. `startNow` is the device time the
        start of that cycle reads, `now` the one read for the finite command. */
    method FiniteAcquisitionV(nsamps: nat, startNow: TimeSpec, now: TimeSpec) returns (samps: seq<seq<Complex>>)
      requires Valid() && nsamps >= 1
      modifies this`script, this`deviceLog, this`hasStream, this`startTimeSet, this`tagNow
      ensures Valid() && hasStream
      ensures samps == Acquired(Deliver(AcquisitionScript(old(hasStream), old(script)), nsamps), |channelMap|)
      ensures script == Consume(AcquisitionScript(old(hasStream), old(script)))
      ensures deviceLog == old(deviceLog)
        + (if old(hasStream) then [] else
             [GetRxStream] + Broadcast(StartCommand(streamNow, old(startTimeSet), startTime, startNow), channelMap)
             + Broadcast(StopCommand, channelMap) + FlushEvents(old(script), FlushItems()))
        + FlushEvents(if old(hasStream) then old(script) else Drain(old(script)), FlushItems())
        + Broadcast(FiniteCommand(nsamps, streamNow, now), channelMap)
        + [Recv(nsamps, 1.0, false)]
      ensures startTimeSet == (old(startTimeSet) && old(hasStream))
      ensures tagNow == (old(tagNow) || !old(hasStream))
    {
      ghost var kludge: seq<DeviceEvent> := [];
      if !hasStream {
        var _ := Start(startNow);
        var _ := Stop();
        kludge := [GetRxStream] + Broadcast(StartCommand(streamNow, old(startTimeSet), startTime, startNow), channelMap)
          + Broadcast(StopCommand, channelMap) + FlushEvents(old(script), FlushItems());
        assert deviceLog == old(deviceLog) + kludge;
      }
      ghost var flushed := FlushEvents(script, FlushItems());
      Flush();
      ghost var log2 := deviceLog;
      samps := Collect(nsamps, now);
      assert log2 == old(deviceLog) + kludge + flushed;
    }

    /** finite_acquisition: only for a single-channel block; otherwise a
        runtime error before anything happens. */
    method FiniteAcquisition(nsamps: nat, startNow: TimeSpec, now: TimeSpec) returns (r: Result<seq<Complex>>)
      requires Valid() && (|channelMap| == 1 ==> nsamps >= 1)
      modifies this`script, this`deviceLog, this`hasStream, this`startTimeSet, this`tagNow
      ensures |channelMap| != 1 ==> r.RuntimeError? && unchanged(this)
      ensures |channelMap| == 1 ==>
        && r == Success(Row(Deliver(AcquisitionScript(old(hasStream), old(script)), nsamps), 0))
        && script == Consume(AcquisitionScript(old(hasStream), old(script)))
        && hasStream
        && tagNow == (old(tagNow) || !old(hasStream))
        && startTimeSet == (old(startTimeSet) && old(hasStream))
    {
      if |channelMap| != 1 {
        return RuntimeError("finite_acquisition: usrp source has multiple channels, call finite_acquisition_v");
      }
      var v := FiniteAcquisitionV(nsamps, startNow, now);
      return Success(v[0]);
    }

    /** The TIME, RATE and FREQ tags of work, on every channel at
        nitems_written(0). */
    method AddTimeTags(time: TimeSpec)
      requires Valid()
      modifies this`tags
      ensures tags == old(tags) + TimeBundle(|channelMap|, written, time, sampRate, centerFreq)
    {
      for i := 0 to |channelMap|
        invariant tags == old(tags) + TimeBundle(i, written, time, sampRate, centerFreq)
      {
        tags := tags + [Tag(i, written, TimeKey(time)), Tag(i, written, RateKey(sampRate)),
                        Tag(i, written, FreqKey(centerFreq))];
      }
    }

    /** The EOB tags of work, on every channel i at nitems_written(i) +
        num_samps - 1. */
    method AddEobTags(numSamps: nat)
      requires Valid()
      modifies this`tags
      ensures tags == old(tags) + EobTags(written, numSamps, |channelMap|)
    {
      for i := 0 to |channelMap|
        invariant tags == old(tags) + EobTags(written, numSamps, i)
      {
        tags := tags + [Tag(i, EobOffset(written, numSamps), EobKey)];
      }
    }

    /** The receive phase of work: a zero-timeout receive, then a single
        packet with a 0.1 s timeout only if that timed out. */
    method ReceiveStep(noutputItems: nat) returns (r: RecvResult)
      modifies this`script, this`deviceLog
      ensures var a := ReceivePhase(old(script), noutputItems);
        r == a.result && script == a.rest && deviceLog == old(deviceLog) + a.events
    {
      r := RecvOnce(noutputItems, 0.0, false);
      if r.error == Timeout {
        r := RecvOnce(noutputItems, 0.1, true);
      }
    }

    /** The end of work for a result that is neither a timeout nor an
        overflow: the TIME/RATE/FREQ bundle on success when the flag is owed,
        EOB tags and the re-armed flag on end of burst, and the count handed
        to the scheduler. */
    method Complete(r: RecvResult) returns (produced: nat)
      requires Valid() && r.error != Timeout && r.error != Overflow
      modifies this`tagNow, this`tags, this`written
      ensures Valid()
      ensures var bundle := if r.error == NoError && old(tagNow)
                then TimeBundle(|channelMap|, old(written), r.time, sampRate, centerFreq) else [];
        var o := Conclude(r, r.error != NoError && old(tagNow), bundle, Received(r, [], []), |channelMap|, old(written));
        produced == o.produced && tagNow == o.tagNow && tags == old(tags) + o.tags
      ensures written == old(written) + produced
    {
      if r.error == NoError && tagNow {
        tagNow := false;
        AddTimeTags(r.time);
      }
      if r.endOfBurst {
        AddEobTags(r.numSamps);
        tagNow := true;
      }
      produced := r.numSamps;
      written := written + produced;
    }

    /** work: receive, classify the error code, tag, and return the count; an
        overflow re-arms the flag and runs work again. */
    method Work(noutputItems: nat) returns (produced: nat)
      requires Valid() && hasStream
      modifies this`script, this`deviceLog, this`tagNow, this`tags, this`written
      ensures Valid()
      ensures var o := Pump(old(tagNow), old(script), noutputItems, |channelMap|, old(written), sampRate, centerFreq);
        && produced == o.produced && tagNow == o.tagNow && script == o.rest
        && deviceLog == old(deviceLog) + o.events && tags == old(tags) + o.tags
      ensures written == old(written) + produced
      decreases |script|
    {
      ghost var a := ReceivePhase(script, noutputItems);
      ghost var o := Pump(tagNow, script, noutputItems, |channelMap|, written, sampRate, centerFreq);
      var r := ReceiveStep(noutputItems);
      if r.error == Timeout {
        assert o == Outcome(0, tagNow, a.rest, a.events, []);
        return 0;
      } else if r.error == Overflow {
        // overflow: the flag is re-armed and work runs again
        tagNow := true;
        ghost var inner := Pump(true, script, noutputItems, |channelMap|, written, sampRate, centerFreq);
        assert o == inner.(events := a.events + inner.events);
        produced := Work(noutputItems);
        AppendAssoc(old(deviceLog), a.events, inner.events);
      } else {
        // NONE or any other code: tag and return the count
        produced := Complete(r);
      }
    }
  }
}

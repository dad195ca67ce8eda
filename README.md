# Tag-producing stream blocks of GNU Radio, modelled in Dafny

This project models two GNU Radio blocks that write stream tags.

**`gr::uhd::usrp_source` (`UsrpSpec`, `UsrpSource`).** This is the USRP receive block.
- `UsrpSource.Block` is a class over the block's mutable state:
  - the tag-needed flag `_tag_now`;
  - the one-shot start time `_start_time_set` / `_start_time`;
  - `_stream_now`;
  - whether a receive stream exists;
  - the channel map;
  - the write counter.
- The UHD driver is replaced by a *script*, the sequence of results its future `recv` calls return. Every stream creation, stream command and receive the block makes is appended to `deviceLog`: stream creation, one stream command per channel, and each receive with its request, timeout and one-packet flag. The other driver calls (rate and frequency set and read back, the device time, the stream's maximum packet size) are not logged. Every tag the block adds is appended to `tags`.
- `work` is a recursive method: an overflow re-enters it, as in the source. It is proved against the pure function `UsrpSpec.Pump`, and the lemmas about `Pump` state what `work` promises:
  - when the TIME/RATE/FREQ bundle is written;
  - that a timeout adds nothing;
  - that an overflow re-arms the flag;
  - where the EOB tags go;
  - that unknown error codes fall through.
- `flush` is a `while` loop proved against `Drain`. `issue_stream_cmd` is a `for` loop proved against `Broadcast`. `finite_acquisition_v` is proved against `AcquisitionScript` and `Acquired`.

**`gr::blocks::stream_to_tagged_stream` (`StreamToTaggedStream`).** This block copies its input and tags the last item of every packet of `packet_len` items.
- `Block.Work` copies the items between arrays and runs the tag loop over `nextTagPos`.
- Its class invariant says two things:
  - the tags written so far are exactly `TagsAt(key, Boundaries(P, P-1, written))`;
  - the next tag position is the first packet end at or after the write counter.
- `BoundariesExact` proves that these positions are exactly the items `x` with `x % P == P - 1`. Consequently, splitting the stream into calls of any sizes neither skips nor duplicates a boundary.

The scheduler's update of `nitems_written` by the count `work` returns is folded into both `Work` methods, as `written := written + produced`. USRP source is a sync block whose outputs all advance by the same count, so one counter `written` stands for `nitems_written(i)` of every output `i`. The TIME bundle at `nitems_written(0)` and the EOB tag at `nitems_written(i) + num_samps - 1` therefore use the same counter.

Points where the code's behaviour is easy to misread:
- **`stop` without a stream.** `stop` (and `flush`) call `_rx_stream->recv` unconditionally (gr-uhd/lib/usrp_source_impl.cc:412). Calling it before any `start` is therefore not a no-op but a null dereference, so `Stop` and `Flush` require `hasStream`.
- **`work` after `set_stream_args`.** `set_stream_args` drops the stream (351) without taking the lock and without starting a new one, so a `work` call before the next `start` dereferences a null stream at the first receive (497). `Work` therefore requires `hasStream`, and `SetStreamArgs` leaves it false.
- **The flag after an overflow.** An overflow sets `_tag_now` (543). It does not stay set, though, when the retried receive succeeds without end of burst: the success branch clears it (522). `UsrpSpec.PumpSummary` states the flag's final value exactly.
- **The EOB offset with no samples.** `nitems_written(i) + num_samps - 1` is unsigned arithmetic. With `num_samps == 0` it lands one item before the counter, and at the very start of the stream it wraps to 2^64 - 1. `EobOffset` computes it modulo 2^64.

## Model

| member | source | states |
|---|---|---|
| StreamToTaggedStream.Block.Make | gr-blocks/lib/stream_to_tagged_stream_impl.cc:41-53 | a packet length below 1 is refused with invalid_argument, and only then; otherwise the block starts with its first tag position at packet_len - 1, no tags and nothing written |
| StreamToTaggedStream.Block.constructor | gr-blocks/lib/stream_to_tagged_stream_impl.cc:45-48 | stores packet length and key, first tag position packet_len - 1, and establishes the class invariant |
| StreamToTaggedStream.Block.Work | gr-blocks/lib/stream_to_tagged_stream_impl.cc:59-75 | copies the first noutput_items items unchanged, leaves the rest of the output alone, and returns noutput_items. It appends exactly the tags for the positions from the old next tag position, step packet_len, below nitems_written + noutput_items, and leaves the next tag position at or after the new counter and less than one packet beyond it. It keeps the invariant that all tags so far are the packet ends below the counter |
| StreamToTaggedStream.Block.TagPacketEnds | gr-blocks/lib/stream_to_tagged_stream_impl.cc:69-72 | the tag loop adds one tag per position of the progression below the bound, in order, and stops at the first position at or after the bound |
| StreamToTaggedStream.CopyItems | gr-blocks/lib/stream_to_tagged_stream_impl.cc:67 | the output's first n items equal the input's; the rest of the output is unchanged |
| StreamToTaggedStream.Block.NextTagPosOnPacketEnd | gr-blocks/lib/stream_to_tagged_stream_impl.cc:48-71 | under the invariant the next tag position is congruent to packet_len - 1 modulo packet_len, and lies in [written, written + packet_len) |
| StreamToTaggedStream.BoundariesSpacing | gr-blocks/lib/stream_to_tagged_stream_impl.cc:69-71 | the positions of one call are non-empty iff the start is below the bound, start at the old next tag position, are spaced exactly packet_len apart, strictly increase and all lie below nitems_written + noutput_items |
| StreamToTaggedStream.BoundariesExact | gr-blocks/lib/stream_to_tagged_stream_impl.cc:69-72 | starting from the first packet end at or after lo, the positions reached are exactly the x in [lo, hi) with x % P == P - 1 (both directions) |
| StreamToTaggedStream.WorkTagsArePacketEnds | gr-blocks/lib/stream_to_tagged_stream_impl.cc:69-72 | the positions one call tags are exactly the packet ends in [nitems_written, nitems_written + noutput_items): none skipped, none duplicated |
| StreamToTaggedStream.BoundariesSplit | gr-blocks/lib/stream_to_tagged_stream_impl.cc:69-71 | running the loop to lo, then from where it stopped to hi, gives the same positions and the same final position as running it to hi at once |
| StreamToTaggedStream.TagsAdvance | gr-blocks/lib/stream_to_tagged_stream_impl.cc:69-71 | the tags of everything before lo plus the tags of one call from lo to hi are the tags of everything before hi |
| StreamToTaggedStream.NextBoundaryBounds | gr-blocks/lib/stream_to_tagged_stream_impl.cc:69-71 | the loop's final position keeps the residue of the start, is at or after the bound, and is less than one packet past it when the start was |
| StreamToTaggedStream.TagsAtContent | gr-blocks/lib/stream_to_tagged_stream_impl.cc:70 | one tag per position, in order, each on port 0 with the block's key and value true |
| StreamToTaggedStream.TagsAtAppend | gr-blocks/lib/stream_to_tagged_stream_impl.cc:69-72 | tagging two runs of positions one after the other is tagging their concatenation |
| UsrpSource.Block.constructor | gr-uhd/lib/usrp_source_impl.cc:63-80 | flag clear, no stream, rate and frequency as read back from the device, nothing written or logged |
| UsrpSource.Block.Work | gr-uhd/lib/usrp_source_impl.cc:487-565 | the returned count, the new flag, the script left, the driver calls appended, the tags appended and the new write counter are exactly those of Pump |
| UsrpSource.Block.ReceiveStep | gr-uhd/lib/usrp_source_impl.cc:497-505 | one zero-timeout receive for noutput_items, and a one-packet 0.1 s receive only when that timed out; result, script and log as ReceivePhase |
| UsrpSource.Block.Complete | gr-uhd/lib/usrp_source_impl.cc:519-564 | for a result that is not a timeout and not an overflow: the bundle only on success with the flag set, which then clears it; EOB tags and the flag set on end of burst; count returned; counter advanced |
| UsrpSource.Block.AddTimeTags | gr-uhd/lib/usrp_source_impl.cc:528-534 | appends TIME, RATE and FREQ for channels 0 .. nchan-1, in channel order, all at nitems_written(0) |
| UsrpSource.Block.AddEobTags | gr-uhd/lib/usrp_source_impl.cc:553-560 | appends one EOB tag per channel at nitems_written + num_samps - 1 (mod 2^64) |
| UsrpSpec.ReceivePhase | gr-uhd/lib/usrp_source_impl.cc:497-505 | the second, single-packet receive happens iff the first receive timed out; the count never exceeds noutput_items; a non-timeout result consumes a script entry |
| UsrpSpec.Deliver | gr-uhd/lib/usrp_source_impl.cc:497-498 | a receive returns the next scripted result with its count capped at the request; an exhausted device times out with 0 samples |
| UsrpSpec.Pump | gr-uhd/lib/usrp_source_impl.cc:487-565 | work's outcome never returns more than noutput_items and never grows the script |
| UsrpSpec.FinalResult | gr-uhd/lib/usrp_source_impl.cc:542-545 | the result work finally acts on, after re-running on every overflow, is never an overflow and never exceeds the request |
| UsrpSpec.PumpSummary | gr-uhd/lib/usrp_source_impl.cc:519-564 | closed form of work: count, tags and final flag depend only on the final result and on whether the flag was set on entry or re-armed by an overflow |
| UsrpSpec.PumpSuccessTags | gr-uhd/lib/usrp_source_impl.cc:520-535 | on a final NONE with the flag owed, TIME/RATE/FREQ on every channel at nitems_written(0) come first among the new tags and the flag ends cleared unless the burst ended; without the flag only EOB tags are added |
| UsrpSpec.PumpOverflowRetags | gr-uhd/lib/usrp_source_impl.cc:519-545 | a successful result after an overflow in the same call always carries the TIME/RATE/FREQ bundle |
| UsrpSpec.PumpTimeout | gr-uhd/lib/usrp_source_impl.cc:538-540 | a final TIMEOUT returns 0, adds no tag (not even EOB) and leaves the flag as on entry unless an overflow re-armed it |
| UsrpSpec.PumpOtherError | gr-uhd/lib/usrp_source_impl.cc:547-564 | an unrecognised error code returns the reported count, never clears the flag, and adds only EOB tags |
| UsrpSpec.PumpEndOfBurst | gr-uhd/lib/usrp_source_impl.cc:553-562 | end of burst on a non-timeout result: an EOB tag on every channel at nitems_written + num_samps - 1, every EOB tag is one of these, and the flag is set on return |
| UsrpSpec.TimeBundleContent | gr-uhd/lib/usrp_source_impl.cc:528-534 | the bundle is three tags per channel, and exactly the TIME, RATE and FREQ tags of channels 0 .. nchan-1 at the given offset |
| UsrpSpec.EobTagsContent | gr-uhd/lib/usrp_source_impl.cc:554-560 | one EOB tag per channel, exactly those of channels 0 .. nchan-1 at the EOB offset |
| UsrpSpec.EobOffsetPlacement | gr-uhd/lib/usrp_source_impl.cc:556 | the EOB offset is the last sample received; with no samples it is one before the counter, or 2^64 - 1 at the start of the stream |
| UsrpSource.Block.IssueStreamCmd | gr-uhd/lib/usrp_source_impl.cc:365-372 | the command is sent once to each entry of the channel map, in order, and nothing else happens |
| UsrpSpec.BroadcastContent | gr-uhd/lib/usrp_source_impl.cc:368-371 | the i-th command issued goes to channel_map[i], and there is one per entry |
| UsrpSource.Block.Start | gr-uhd/lib/usrp_source_impl.cc:374-398 | creates the stream only when none exists; uses the pending start time when set and clears it (one shot), otherwise now + 0.1 s; copies stream_now; issues START_CONTINUOUS to every mapped channel; sets the flag; returns true |
| UsrpSource.Block.Flush | gr-uhd/lib/usrp_source_impl.cc:400-421 | receives with zero timeout into a 4096-byte buffer per channel until the first TIMEOUT: the script left and the receives made are Drain and DrainCount |
| UsrpSpec.DrainStopsAtFirstTimeout | gr-uhd/lib/usrp_source_impl.cc:409-420 | when result k is the first TIMEOUT, flush makes k + 1 receives and leaves the results after it; with no TIMEOUT it drains the device |
| UsrpSpec.Drain | gr-uhd/lib/usrp_source_impl.cc:409-420 | flush consumes at least one result from a non-empty device |
| UsrpSpec.DrainCount | gr-uhd/lib/usrp_source_impl.cc:409-420 | flush makes at least one receive and at most one per scripted result plus one |
| UsrpSource.Block.Stop | gr-uhd/lib/usrp_source_impl.cc:423-431 | STOP_CONTINUOUS to every mapped channel first, then a flush; returns true |
| UsrpSource.Block.SetStartTime | gr-uhd/lib/usrp_source_impl.cc:357-363 | stores the pending start time, marks it set and clears stream_now |
| UsrpSource.Block.SetSampRate | gr-uhd/lib/usrp_source_impl.cc:110-118 | stores the rate the device reports and re-arms the flag |
| UsrpSource.Block.SetCenterFreq | gr-uhd/lib/usrp_source_impl.cc:136-146 | stores the frequency the device reports and re-arms the flag |
| UsrpSource.Block.SetStreamArgs | gr-uhd/lib/usrp_source_impl.cc:346-355 | takes the new channel map and drops the stream |
| UsrpSource.Block.FiniteAcquisitionV | gr-uhd/lib/usrp_source_impl.cc:441-485 | runs start/stop first only without a stream, then flushes; issues NUM_SAMPS_AND_DONE with num_samps = n at now + 0.1 s, ignoring any pending start time but copying stream_now; makes one 1 s receive; returns one buffer per channel, each resized to the count received |
| UsrpSource.Block.Collect | gr-uhd/lib/usrp_source_impl.cc:453-481 | zeroed buffers of n samples, the command to every mapped channel, one receive, then every buffer resized to the count: the buffers are Acquired of that receive |
| UsrpSource.Block.TruncateAll | gr-uhd/lib/usrp_source_impl.cc:477-479 | every buffer cut to its first count samples, one per input buffer |
| UsrpSpec.Row | gr-uhd/lib/usrp_source_impl.cc:473-479 | a channel's buffer after the receive has exactly the reported count of samples, the received ones when the driver supplied them |
| UsrpSpec.Acquired | gr-uhd/lib/usrp_source_impl.cc:453-479 | nchan buffers, each of the count received |
| UsrpSpec.AcquiredShape | gr-uhd/lib/usrp_source_impl.cc:453-479 | finite acquisition returns nchan buffers of one common length no greater than n, and exactly n when the device delivers at least n samples |
| UsrpSource.Block.FiniteAcquisition | gr-uhd/lib/usrp_source_impl.cc:433-439 | a runtime error with nothing changed unless there is exactly one channel; otherwise the single buffer of the vector form, the script after its flushes and receive, a stream, the flag set and the pending start time used up when the start/stop cycle ran |

## Left out

- Locking (`boost::recursive_mutex` in `start`, `stop` and `work`) is left out: the model covers single-threaded calls only.
- The UHD driver is left out: `get_rx_stream`, `recv`, `issue_stream_cmd` on the device and `get_time_now` are foreign calls.
  - Receives come from the script.
  - The device time is a parameter of each call that reads it: `now` of `Start`, `startNow` and `now` of `FiniteAcquisitionV`.
  - Rate and frequency read back after a setter are parameters.
  - Every stream creation, stream command and receive is recorded in `deviceLog`.
- The driver's count is capped at the request. An exhausted script behaves as a receive that times out with no samples. This is what makes `flush` and the overflow recursion terminate; the source bounds neither.
- Floating point is not modelled:
  - time specs, rate and frequency are stored and echoed, not computed with;
  - `now + reasonable_delay` is recorded as `AfterDelay(now)`;
  - the TIME tag's `(full_secs, frac_secs)` tuple is the time spec itself.
- UsrpSource.Block.Work: the samples `recv` writes into `work`'s output buffers are not modelled, only their count.
- The output buffers of `flush` are not modelled, only the per-channel item count `4096 / bytes_per_item`.
- The tags' source id `_id` (passed with every tag the block adds) is not modelled: a model tag holds channel, offset and key only.
- The log message of the default error branch and `_samps_per_packet` (written by `start`, never read by the core) are not modelled.
- The pass-through accessors are left out: gain, antenna, bandwidth, DC/IQ, sensors, dboard, subdev, clock and time sources, and normalized gain.
- `make` format selection and the ABI check are left out.
- Only the stream-API build is modelled. The `GR_UHD_USE_STREAM_API`-less branches and their "not implemented" throws are left out.
- UsrpSource.Block.SetStreamArgs requires the new channel map to have as many entries as the old one. The block's output count `_nchan` is fixed at construction, and `_update_stream_args`, which validates the new arguments, is not part of this model.
- UsrpSource.Block.FiniteAcquisitionV requires n >= 1. With n == 0 the source takes `&samps[i].front()` of an empty vector, which is undefined. UsrpSource.Block.FiniteAcquisition inherits that requirement only for a single-channel block; with more channels it returns the runtime error for any n, including 0.
- UsrpSource.Block.FiniteAcquisition does not restate the driver log. Its script, stream, flag, pending start time and result are stated, and the log is that of FiniteAcquisitionV, which it calls.
- UsrpSource.Block.Work does not wrap the write counter: `nitems_written` is a uint64 in the source, but `written` is an unbounded counter and the TIME/RATE/FREQ offset uses it as is; only the EOB offset is computed modulo 2^64.
- StreamToTaggedStream.Block.Work does not model 64-bit wrap-around of `nitems_written(0) + noutput_items` and `d_next_tag_pos`: counters are unbounded.
- StreamToTaggedStream.CopyItems copies whole items. The item size `itemsize * vlen` and the byte-wise `memcpy` are not modelled.

/** Model of gr::blocks::stream_to_tagged_stream: a pass-through block that
    marks the last item of every packet of `packetLen` items with a tag whose
    key is the tagged-stream length key and whose value is true. */
module StreamToTaggedStream {

  /** A stream tag as the block adds it: output port, absolute item offset,
      key, and the boolean value PMT_T. */
  datatype Tag = Tag(port: nat, offset: nat, key: string, value: bool)

  datatype Result<T> = Success(value: T) | InvalidArgument(message: string)

  /** The tag positions the block emits when its next tag position is `from`
      and the write counter plus the items of this call reach `hi`:
      `from`, `from + p`, `from + 2p`, ... as long as they stay below `hi`. */
  function Boundaries(p: nat, from: nat, hi: nat): seq<nat>
    requires p >= 1
    decreases hi - from
  {
    if from >= hi then [] else [from] + Boundaries(p, from + p, hi)
  }

  /** The first position of the progression `from`, `from + p`, ... that is
      at or after `lo`. */
  function NextBoundary(p: nat, from: nat, lo: nat): nat
    requires p >= 1
    decreases lo - from
  {
    if from >= lo then from else NextBoundary(p, from + p, lo)
  }

  /** The tags for a list of positions, in order, on port 0 with value true. */
  function TagsAt(key: string, ps: seq<nat>): seq<Tag>
  {
    if ps == [] then [] else TagsAt(key, ps[..|ps| - 1]) + [Tag(0, ps[|ps| - 1], key, true)]
  }

  lemma {:induction false} TagsAtAppend(key: string, a: seq<nat>, b: seq<nat>)
    ensures TagsAt(key, a + b) == TagsAt(key, a) + TagsAt(key, b)
    decreases |b|
  {
    if b != [] {
      var b' := b[..|b| - 1];
      assert (a + b)[..|a + b| - 1] == a + b';
      TagsAtAppend(key, a, b');
    } else {
      assert a + b == a;
    }
  }

  /** Every tag produced for a list of positions sits on port 0 with the given
      key and value true, one tag per position, in the same order. */
  lemma {:induction false} TagsAtContent(key: string, ps: seq<nat>)
    ensures |TagsAt(key, ps)| == |ps|
    ensures forall i :: 0 <= i < |ps| ==> TagsAt(key, ps)[i] == Tag(0, ps[i], key, true)
    decreases |ps|
  {
    if ps != [] {
      TagsAtContent(key, ps[..|ps| - 1]);
    }
  }

  /** k * p is at least p for a positive multiplier. */
  lemma {:induction false} MulAtLeast(k: int, p: int)
    requires k >= 1 && p >= 1
    ensures k * p >= p
    decreases k
  {
    if k > 1 {
      MulAtLeast(k - 1, p);
      assert k * p == (k - 1) * p + p;
    }
  }

  /** Quotient-remainder uniqueness: a decomposition x == q * p + r with
      0 <= r < p gives the remainder x % p. */
  lemma ModUnique(x: int, p: int, q: int, r: int)
    requires p >= 1 && 0 <= r < p && x == q * p + r
    ensures x % p == r
  {
    var q0, r0 := x / p, x % p;
    assert x == q0 * p + r0;
    var d := q - q0;
    assert d * p == q * p - q0 * p;
    assert d * p == r0 - r;
    if d >= 1 {
      MulAtLeast(d, p);
    }
    assert d == 0;
  }

  /** Adding one period keeps the residue modulo the period. */
  lemma ModAddPeriod(x: nat, p: nat)
    requires p >= 1
    ensures (x + p) % p == x % p
  {
    var q := x / p;
    assert x == q * p + x % p;
    assert x + p == (q + 1) * p + x % p;
    ModUnique(x + p, p, q + 1, x % p);
  }

  /** Two numbers with the same residue modulo `p` that are less than `p`
      apart are equal. */
  lemma SameResidueClose(a: nat, b: nat, p: nat)
    requires p >= 1 && a <= b < a + p && a % p == b % p
    ensures a == b
  {
    var qa, qb := a / p, b / p;
    assert a == qa * p + a % p;
    assert b == qb * p + b % p;
    var d := qb - qa;
    assert d * p == qb * p - qa * p;
    assert d * p == b - a;
    if d >= 1 {
      MulAtLeast(d, p);
    }
    assert d == 0;
  }

  /** The emitted positions start at `from`, are spaced exactly `p` apart
      (hence strictly increasing) and all lie below `hi`. */
  lemma {:induction false} BoundariesSpacing(p: nat, from: nat, hi: nat)
    requires p >= 1
    ensures var b := Boundaries(p, from, hi);
      (|b| > 0 <==> from < hi)
      && (|b| > 0 ==> b[0] == from)
      && (forall i :: 0 < i < |b| ==> b[i] == b[i - 1] + p)
      && (forall i :: 0 <= i < |b| ==> from <= b[i] < hi)
      && (forall i, j :: 0 <= i < j < |b| ==> b[i] < b[j])
    decreases hi - from
  {
    if from < hi {
      BoundariesSpacing(p, from + p, hi);
      var b, t := Boundaries(p, from, hi), Boundaries(p, from + p, hi);
      assert b == [from] + t;
      forall i, j | 0 <= i < j < |b| ensures b[i] < b[j] {
        if i > 0 {
          assert b[i] == t[i - 1] && b[j] == t[j - 1];
        } else {
          assert b[j] == t[j - 1];
        }
      }
    }
  }

  /** No boundary is skipped or duplicated: when `from` is the first position
      at or after `lo` that lies on the last item of a packet, the emitted
      positions are exactly the last-item positions in [lo, hi). */
  lemma {:induction false} BoundariesExact(p: nat, from: nat, lo: nat, hi: nat)
    requires p >= 1 && from % p == p - 1 && lo <= from < lo + p
    ensures forall x: nat :: x in Boundaries(p, from, hi) <==> lo <= x < hi && x % p == p - 1
    decreases hi - from
  {
    if from >= hi {
      forall x: nat | lo <= x < hi && x % p == p - 1 ensures false {
        SameResidueClose(x, from, p);
      }
    } else {
      ModAddPeriod(from, p);
      BoundariesExact(p, from + p, from + 1, hi);
      forall x: nat | lo <= x <= from && x % p == p - 1 ensures x == from {
        SameResidueClose(x, from, p);
      }
    }
  }

  /** The positions emitted up to `lo` and those emitted from the next
      position after `lo` up to `hi` together are the positions emitted in one
      go up to `hi`: splitting the stream into calls changes nothing. */
  lemma {:induction false} BoundariesSplit(p: nat, from: nat, lo: nat, hi: nat)
    requires p >= 1 && lo <= hi
    ensures Boundaries(p, from, lo) + Boundaries(p, NextBoundary(p, from, lo), hi) == Boundaries(p, from, hi)
    ensures NextBoundary(p, NextBoundary(p, from, lo), hi) == NextBoundary(p, from, hi)
    decreases lo - from
  {
    if from < lo {
      BoundariesSplit(p, from + p, lo, hi);
    }
  }

  /** The next position after `lo` keeps the residue of `from` and, when
      `from` was below `lo`, lies less than one packet after `lo`. */
  lemma {:induction false} NextBoundaryBounds(p: nat, from: nat, lo: nat)
    requires p >= 1
    ensures var n := NextBoundary(p, from, lo);
      n % p == from % p && n >= lo && n >= from
      && (from < lo + p ==> n < lo + p)
    decreases lo - from
  {
    if from < lo {
      ModAddPeriod(from, p);
      NextBoundaryBounds(p, from + p, lo);
    }
  }

  class Block {
    /** d_packet_len */
    const packetLen: nat
    /** d_tsb_key */
    const tsbKey: string
    /** d_next_tag_pos */
    var nextTagPos: nat
    /** nitems_written(0): advanced by the scheduler by the count work returns */
    var written: nat
    /** every tag this block has added, in order */
    var tags: seq<Tag>

    /** The next tag position is the first packet end at or after the write
        counter, and the tags so far are exactly the packet ends written. */
    ghost predicate Valid()
      reads this
    {
      && packetLen >= 1
      && nextTagPos == NextBoundary(packetLen, packetLen - 1, written)
      && tags == TagsAt(tsbKey, Boundaries(packetLen, packetLen - 1, written))
    }

    constructor (packetLen: nat, tsbKey: string)
      requires packetLen >= 1
      ensures Valid()
      ensures this.packetLen == packetLen && this.tsbKey == tsbKey
      ensures nextTagPos == packetLen - 1 && written == 0 && tags == []
    {
      this.packetLen := packetLen;
      this.tsbKey := tsbKey;
      nextTagPos := packetLen - 1;
      written := 0;
      tags := [];
    }

    /** stream_to_tagged_stream::make: a zero packet length is refused with
        invalid_argument; otherwise the first tag goes on item packetLen - 1. */
    static method Make(packetLen: nat, tsbKey: string) returns (r: Result<Block>)
      ensures packetLen < 1 <==> r.InvalidArgument?
      ensures r.Success? ==>
        && fresh(r.value) && r.value.Valid()
        && r.value.packetLen == packetLen && r.value.tsbKey == tsbKey
        && r.value.nextTagPos == packetLen - 1 && r.value.written == 0 && r.value.tags == []
    {
      if packetLen < 1 {
        return InvalidArgument("packet length must be at least 1");
      }
      var b := new Block(packetLen, tsbKey);
      return Success(b);
    }

    /** The position invariant: the next tag position always lies on the last
        item of a packet, at or after the write counter and less than one
        packet beyond it. */
    lemma NextTagPosOnPacketEnd()
      requires Valid()
      ensures nextTagPos % packetLen == packetLen - 1
      ensures written <= nextTagPos < written + packetLen
    {
      NextBoundaryBounds(packetLen, packetLen - 1, written);
      ModUnique(packetLen - 1, packetLen, 0, packetLen - 1);
    }

    /** The tag loop of work: one tag on every packet end from the next tag
        position up to (not including) `hi`, the position moving one packet
        at a time. */
    method TagPacketEnds(hi: nat)
      requires packetLen >= 1
      modifies this`tags, this`nextTagPos
      ensures tags == old(tags) + TagsAt(tsbKey, Boundaries(packetLen, old(nextTagPos), hi))
      ensures nextTagPos == NextBoundary(packetLen, old(nextTagPos), hi)
    {
      ghost var emitted: seq<nat> := [];
      while nextTagPos < hi
        invariant old(nextTagPos) <= nextTagPos
        invariant emitted + Boundaries(packetLen, nextTagPos, hi) == Boundaries(packetLen, old(nextTagPos), hi)
        invariant NextBoundary(packetLen, nextTagPos, hi) == NextBoundary(packetLen, old(nextTagPos), hi)
        invariant tags == old(tags) + TagsAt(tsbKey, emitted)
        decreases hi - nextTagPos
      {
        assert (emitted + [nextTagPos]) + Boundaries(packetLen, nextTagPos + packetLen, hi)
          == emitted + Boundaries(packetLen, nextTagPos, hi);
        tags := tags + [Tag(0, nextTagPos, tsbKey, true)];
        TagsAtAppend(tsbKey, emitted, [nextTagPos]);
        emitted := emitted + [nextTagPos];
        nextTagPos := nextTagPos + packetLen;
      }
      assert emitted == Boundaries(packetLen, old(nextTagPos), hi);
    }

    /** work: copy the input items to the output and tag every packet end
        below nitems_written(0) + noutput_items. */
    method Work<T>(noutputItems: nat, input: array<T>, output: array<T>) returns (produced: nat)
      requires Valid()
      requires input.Length >= noutputItems && output.Length >= noutputItems
      modifies this`tags, this`nextTagPos, this`written, output
      ensures Valid()
      ensures produced == noutputItems
      ensures output[..noutputItems] == input[..noutputItems]
      ensures output[noutputItems..] == old(output[noutputItems..])
      ensures written == old(written) + noutputItems
      ensures tags == old(tags) + TagsAt(tsbKey, Boundaries(packetLen, old(nextTagPos), written))
      ensures written <= nextTagPos < written + packetLen
    {
      CopyItems(noutputItems, input, output);
      var hi := written + noutputItems;
      TagPacketEnds(hi);
      TagsAdvance(packetLen, tsbKey, written, hi);
      written := hi;
      produced := noutputItems;
      NextTagPosOnPacketEnd();
    }
  }

  /** The memcpy of work: the first `n` items of the input become the first
      `n` items of the output, and the rest of the output is untouched. */
  method CopyItems<T>(n: nat, input: array<T>, output: array<T>)
    requires input.Length >= n && output.Length >= n
    modifies output
    ensures output[..n] == input[..n]
    ensures output[n..] == old(output[n..])
  {
    forall i | 0 <= i < n {
      output[i] := input[i];
    }
  }

  /** Advancing the write counter from `lo` to `hi` in one call adds the tags
      for the packet ends in between and moves the next tag position to the
      first packet end at or after `hi`. */
  lemma TagsAdvance(p: nat, key: string, lo: nat, hi: nat)
    requires p >= 1 && lo <= hi
    ensures TagsAt(key, Boundaries(p, p - 1, lo)) + TagsAt(key, Boundaries(p, NextBoundary(p, p - 1, lo), hi))
      == TagsAt(key, Boundaries(p, p - 1, hi))
    ensures NextBoundary(p, NextBoundary(p, p - 1, lo), hi) == NextBoundary(p, p - 1, hi)
  {
    BoundariesSplit(p, p - 1, lo, hi);
    TagsAtAppend(key, Boundaries(p, p - 1, lo), Boundaries(p, NextBoundary(p, p - 1, lo), hi));
  }

  /** Across calls: the tags one call adds are exactly the packet ends in the
      range of items that call writes. */
  lemma WorkTagsArePacketEnds(p: nat, next: nat, written: nat, n: nat)
    requires p >= 1 && next == NextBoundary(p, p - 1, written)
    ensures forall x: nat :: x in Boundaries(p, next, written + n) <==> written <= x < written + n && x % p == p - 1
  {
    NextBoundaryBounds(p, p - 1, written);
    ModUnique(p - 1, p, 0, p - 1);
    BoundariesExact(p, next, written, written + n);
  }
}

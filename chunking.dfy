/** The submission loop of `ingest_data.py`:

      for i in range(0, len(all_episodes), CHUNK_SIZE):
          add_episode_bulk(all_episodes[i:i + CHUNK_SIZE]); sleep(DELAY_SECONDS)

    Chunks gives the slices, Paced the calls when every bulk call succeeds,
    and Submission the calls and the failing chunk when one raises. */
module Chunking {
  import opened Records
  import opened GraphService

  const DelaySeconds: nat := 20

  function Min(a: int, b: int): int
  {
    if a <= b then a else b
  }

  /** The slices `eps[i:i+size]` for `i` in `range(0, len(eps), size)`. */
  function Chunks(eps: seq<Episode>, size: nat): seq<seq<Episode>>
    requires size >= 1
    decreases |eps|
  {
    if eps == [] then []
    else
      var m := Min(size, |eps|);
      [eps[..m]] + Chunks(eps[m..], size)
  }

  function Flatten(cs: seq<seq<Episode>>): seq<Episode>
    decreases |cs|
  {
    if cs == [] then [] else cs[0] + Flatten(cs[1..])
  }

  lemma MulSucc(j: int, size: int)
    ensures (j + 1) * size == j * size + size
  {
  }

  /** The chunks together give back `eps`, in order. */
  lemma {:induction false} ChunksFlatten(eps: seq<Episode>, size: nat)
    requires size >= 1
    ensures Flatten(Chunks(eps, size)) == eps
    decreases |eps|
  {
    if eps != [] {
      var m := Min(size, |eps|);
      ChunksFlatten(eps[m..], size);
      assert eps[..m] + eps[m..] == eps;
    }
  }

  /** The chunks are non-empty, hold at most `size` episodes each, and all
      but the last hold exactly `size`; their number `c` is ceil(n / size),
      the least `c` with `n <= c * size`. */
  lemma {:induction false} ChunksSizes(eps: seq<Episode>, size: nat)
    requires size >= 1
    ensures var cs := Chunks(eps, size);
      && (forall k | 0 <= k < |cs| :: 0 < |cs[k]| <= size)
      && (forall k | 0 <= k < |cs| - 1 :: |cs[k]| == size)
      && (|cs| - 1) * size < |eps| <= |cs| * size
    decreases |eps|
  {
    var cs := Chunks(eps, size);
    if eps != [] {
      var m := Min(size, |eps|);
      var rest := Chunks(eps[m..], size);
      ChunksSizes(eps[m..], size);
      assert cs == [eps[..m]] + rest;
      MulSucc(|rest|, size);
      MulSucc(|rest| - 1, size);
      forall k | 0 <= k < |cs| - 1 ensures |cs[k]| == size {
        if k == 0 {
          assert rest != [];
        } else {
          assert cs[k] == rest[k - 1];
        }
      }
    }
  }

  lemma SliceAfterFirst(eps: seq<Episode>, size: nat, a: nat)
    requires size <= |eps| && a < |eps| - size
    ensures eps[size..][a .. Min(a + size, |eps| - size)] == eps[a + size .. Min(a + size + size, |eps|)]
  {
  }

  /** `k * size`, built by repeated addition so that the proofs about
      chunk positions stay linear. */
  function Offset(k: nat, size: nat): nat
  {
    if k == 0 then 0 else Offset(k - 1, size) + size
  }

  lemma {:induction false} OffsetIsProduct(k: nat, size: nat)
    ensures Offset(k, size) == k * size
  {
    if k > 0 {
      OffsetIsProduct(k - 1, size);
      MulSucc(k - 1, size);
    }
  }

  lemma {:induction false} ChunkAt(eps: seq<Episode>, size: nat, k: nat)
    requires size >= 1 && k < |Chunks(eps, size)|
    ensures Offset(k, size) < |eps|
    ensures Chunks(eps, size)[k] == eps[Offset(k, size) .. Min(Offset(k, size) + size, |eps|)]
    decreases k
  {
    var m := Min(size, |eps|);
    var rs := Chunks(eps[m..], size);
    assert Chunks(eps, size) == [eps[..m]] + rs;
    if k > 0 {
      var j := k - 1;
      assert Chunks(eps, size)[k] == rs[j];
      assert rs != [] && m == size;
      ChunkAt(eps[m..], size, j);
      SliceAfterFirst(eps, size, Offset(j, size));
    }
  }

  /** Chunk `k` is the slice `eps[k * size : k * size + size]`. */
  lemma ChunksAt(eps: seq<Episode>, size: nat)
    requires size >= 1
    ensures var cs := Chunks(eps, size);
      forall k | 0 <= k < |cs| :: k * size < |eps| && cs[k] == eps[k * size .. Min(k * size + size, |eps|)]
  {
    forall k | 0 <= k < |Chunks(eps, size)|
      ensures k * size < |eps| && Chunks(eps, size)[k] == eps[k * size .. Min(k * size + size, |eps|)]
    {
      ChunkAt(eps, size, k);
      OffsetIsProduct(k, size);
    }
  }

  /** The calls when every bulk call succeeds: each chunk, then a pause. */
  function Paced(cs: seq<seq<Episode>>): seq<Call>
    decreases |cs|
  {
    if cs == [] then [] else [Bulk(cs[0]), Call.Sleep(DelaySeconds)] + Paced(cs[1..])
  }

  /** The chunks handed to the bulk calls of a trace, in call order. */
  function BulkedChunks(calls: seq<Call>): seq<seq<Episode>>
    decreases |calls|
  {
    if calls == [] then []
    else (if calls[0].Bulk? then [calls[0].chunk] else []) + BulkedChunks(calls[1..])
  }

  lemma {:induction false} BulkedChunksAppend(a: seq<Call>, b: seq<Call>)
    ensures BulkedChunks(a + b) == BulkedChunks(a) + BulkedChunks(b)
    decreases |a|
  {
    if a == [] {
      assert a + b == b;
    } else {
      assert (a + b)[0] == a[0] && (a + b)[1..] == a[1..] + b;
      BulkedChunksAppend(a[1..], b);
    }
  }

  /** Chunk `k` is bulked at call `2k` and the pause after it is call `2k + 1`. */
  lemma {:induction false} PacedAt(cs: seq<seq<Episode>>, k: nat)
    requires k < |cs|
    ensures |Paced(cs)| == 2 * |cs|
    ensures Paced(cs)[2 * k] == Bulk(cs[k]) && Paced(cs)[2 * k + 1] == Call.Sleep(DelaySeconds)
    decreases |cs|
  {
    if k > 0 {
      PacedAt(cs[1..], k - 1);
      assert Paced(cs)[2 * k] == Paced(cs[1..])[2 * (k - 1)];
      assert Paced(cs)[2 * k + 1] == Paced(cs[1..])[2 * (k - 1) + 1];
    } else if |cs| > 1 {
      PacedAt(cs[1..], 0);
    }
  }

  lemma {:induction false} PacedBulked(cs: seq<seq<Episode>>)
    ensures BulkedChunks(Paced(cs)) == cs
    decreases |cs|
  {
    if cs != [] {
      PacedBulked(cs[1..]);
      var head: seq<Call> := [Bulk(cs[0]), Call.Sleep(DelaySeconds)];
      BulkedChunksAppend(head, Paced(cs[1..]));
      assert BulkedChunks(head) == [cs[0]] by {
        assert head[1..] == [Call.Sleep(DelaySeconds)];
        assert head[1..][1..] == [];
      }
      assert cs == [cs[0]] + cs[1..];
    }
  }

  /** The paced trace alternates a bulk call and a pause of DelaySeconds,
      bulk calls carry the chunks in order, and it ends with a pause. */
  lemma PacedSpec(cs: seq<seq<Episode>>)
    ensures |Paced(cs)| == 2 * |cs|
    ensures forall k | 0 <= k < |cs| ::
      Paced(cs)[2 * k] == Bulk(cs[k]) && Paced(cs)[2 * k + 1] == Call.Sleep(DelaySeconds)
    ensures BulkedChunks(Paced(cs)) == cs
  {
    if cs == [] {
    } else {
      PacedAt(cs, 0);
    }
    forall k | 0 <= k < |cs|
      ensures Paced(cs)[2 * k] == Bulk(cs[k]) && Paced(cs)[2 * k + 1] == Call.Sleep(DelaySeconds)
    {
      PacedAt(cs, k);
    }
    PacedBulked(cs);
  }

  lemma {:induction false} PacedAppend(a: seq<seq<Episode>>, b: seq<seq<Episode>>)
    ensures Paced(a + b) == Paced(a) + Paced(b)
    decreases |a|
  {
    if a == [] {
      assert a + b == b;
    } else {
      assert (a + b)[0] == a[0] && (a + b)[1..] == a[1..] + b;
      PacedAppend(a[1..], b);
    }
  }

  /** The calls the loop makes, and the chunk whose bulk call raised. */
  datatype Submitted = Submitted(calls: seq<Call>, failed: Option<nat>)

  /** `calls` made before the chunks `cs`, then `s` counted `k` chunks later. */
  function After(calls: seq<Call>, k: nat, s: Submitted): Submitted
  {
    Submitted(calls + s.calls, if s.failed.Some? then Some(s.failed.value + k) else None)
  }

  /** Submitting the chunks `cs` after the calls `before`: a bulk call, then
      a pause, for each chunk, stopping at the first bulk call that raises. */
  function Submission(cs: seq<seq<Episode>>, accepts: seq<Call> -> bool, before: seq<Call>): Submitted
    decreases |cs|
  {
    if cs == [] then Submitted([], None)
    else if !accepts(before + [Bulk(cs[0])]) then Submitted([Bulk(cs[0])], Some(0))
    else
      var head := [Bulk(cs[0]), Call.Sleep(DelaySeconds)];
      After(head, 1, Submission(cs[1..], accepts, before + head))
  }

  /** The service's verdict on the bulk call for chunk `k`, all earlier
      chunks having been accepted. */
  predicate AcceptsChunk(cs: seq<seq<Episode>>, accepts: seq<Call> -> bool, before: seq<Call>, k: nat)
    requires k < |cs|
  {
    accepts(before + Paced(cs[..k]) + [Bulk(cs[k])])
  }

  /** Chunk `j + 1` of `cs` is chunk `j` of its tail, sent after the same calls. */
  lemma AcceptsChunkShift(cs: seq<seq<Episode>>, accepts: seq<Call> -> bool, before: seq<Call>, j: nat)
    requires j + 1 < |cs|
    ensures AcceptsChunk(cs, accepts, before, j + 1)
        == AcceptsChunk(cs[1..], accepts, before + [Bulk(cs[0]), Call.Sleep(DelaySeconds)], j)
  {
    var tail := cs[1..];
    assert Paced([cs[0]]) == [Bulk(cs[0]), Call.Sleep(DelaySeconds)] by {
      assert [cs[0]][1..] == [];
    }
    assert cs[..j + 1] == [cs[0]] + tail[..j];
    PacedAppend([cs[0]], tail[..j]);
    assert cs[j + 1] == tail[j];
    assert before + Paced(cs[..j + 1]) + [Bulk(cs[j + 1])]
        == (before + [Bulk(cs[0]), Call.Sleep(DelaySeconds)]) + Paced(tail[..j]) + [Bulk(tail[j])];
  }

  lemma AcceptsFirstChunk(cs: seq<seq<Episode>>, accepts: seq<Call> -> bool, before: seq<Call>)
    requires cs != []
    ensures AcceptsChunk(cs, accepts, before, 0) == accepts(before + [Bulk(cs[0])])
  {
    assert cs[..0] == [];
    assert before + Paced(cs[..0]) + [Bulk(cs[0])] == before + [Bulk(cs[0])];
  }

  /** No bulk call raises exactly when the service accepts every chunk, and
      then every chunk is sent, in order, each followed by one pause. */
  lemma {:induction false} SubmissionAccepted(cs: seq<seq<Episode>>, accepts: seq<Call> -> bool, before: seq<Call>)
    ensures var s := Submission(cs, accepts, before);
      && (s.failed.None? <==> forall k | 0 <= k < |cs| :: AcceptsChunk(cs, accepts, before, k))
      && (s.failed.None? ==> s.calls == Paced(cs))
    decreases |cs|
  {
    if cs != [] {
      AcceptsFirstChunk(cs, accepts, before);
      if accepts(before + [Bulk(cs[0])]) {
        var b := before + [Bulk(cs[0]), Call.Sleep(DelaySeconds)];
        SubmissionAccepted(cs[1..], accepts, b);
        forall j | 0 <= j < |cs| - 1
          ensures AcceptsChunk(cs, accepts, before, j + 1) == AcceptsChunk(cs[1..], accepts, b, j)
        {
          AcceptsChunkShift(cs, accepts, before, j);
        }
        if !(forall k | 0 <= k < |cs| - 1 :: AcceptsChunk(cs[1..], accepts, b, k)) {
          var k :| 0 <= k < |cs| - 1 && !AcceptsChunk(cs[1..], accepts, b, k);
          assert !AcceptsChunk(cs, accepts, before, k + 1);
        } else {
          forall k | 0 <= k < |cs| ensures AcceptsChunk(cs, accepts, before, k) {
            if k > 0 {
              assert AcceptsChunk(cs[1..], accepts, b, k - 1);
            }
          }
        }
      }
    }
  }

  /** If the bulk call for chunk `k` raises, every earlier chunk was
      accepted and followed by a pause, that call is the last one made, and
      no later chunk is sent. */
  lemma {:induction false} SubmissionFailed(cs: seq<seq<Episode>>, accepts: seq<Call> -> bool, before: seq<Call>)
    requires Submission(cs, accepts, before).failed.Some?
    ensures var s := Submission(cs, accepts, before);
      var k := s.failed.value;
      && k < |cs|
      && (forall j | 0 <= j < k :: AcceptsChunk(cs, accepts, before, j))
      && !AcceptsChunk(cs, accepts, before, k)
      && s.calls == Paced(cs[..k]) + [Bulk(cs[k])]
    decreases |cs|
  {
    var s := Submission(cs, accepts, before);
    AcceptsFirstChunk(cs, accepts, before);
    if accepts(before + [Bulk(cs[0])]) {
      var tail := cs[1..];
      var head := [Bulk(cs[0]), Call.Sleep(DelaySeconds)];
      var b := before + head;
      SubmissionFailed(tail, accepts, b);
      var j := Submission(tail, accepts, b).failed.value;
      var k := j + 1;
      assert Paced([cs[0]]) == head by {
        assert [cs[0]][1..] == [];
      }
      assert cs[..k] == [cs[0]] + tail[..j];
      PacedAppend([cs[0]], tail[..j]);
      assert cs[k] == tail[j];
      AcceptsChunkShift(cs, accepts, before, j);
      forall i | 0 <= i < k ensures AcceptsChunk(cs, accepts, before, i) {
        if i > 0 {
          AcceptsChunkShift(cs, accepts, before, i - 1);
        }
      }
    }
  }

  /** The bulk calls of a failed submission carry exactly the chunks up to
      the failing one. */
  lemma NoChunkAfterFailure(cs: seq<seq<Episode>>, accepts: seq<Call> -> bool, before: seq<Call>)
    requires Submission(cs, accepts, before).failed.Some?
    ensures var s := Submission(cs, accepts, before);
      s.failed.value < |cs| && BulkedChunks(s.calls) == cs[..s.failed.value + 1]
  {
    SubmissionFailed(cs, accepts, before);
    var s := Submission(cs, accepts, before);
    var k := s.failed.value;
    PacedSpec(cs[..k]);
    BulkedChunksAppend(Paced(cs[..k]), [Bulk(cs[k])]);
    assert BulkedChunks([Bulk(cs[k])]) == [cs[k]];
    assert cs[..k + 1] == cs[..k] + [cs[k]];
  }

  /** End to end for `n` episodes and a chunk size of at least one: when no
      bulk call raises there are ceil(n / size) bulk calls (the least count
      whose chunks can hold n episodes), each followed by
      one pause, the trace ends with a pause, and no episodes means no calls. */
  lemma ChunkedTrace(eps: seq<Episode>, size: nat, accepts: seq<Call> -> bool, before: seq<Call>)
    requires size >= 1
    requires Submission(Chunks(eps, size), accepts, before).failed.None?
    ensures var calls := Submission(Chunks(eps, size), accepts, before).calls;
      var count := |Chunks(eps, size)|;
      && |calls| == 2 * count
      && (count - 1) * size < |eps| <= count * size
      && (forall k | 0 <= k < count ::
            && calls[2 * k].Bulk?
            && 0 < |calls[2 * k].chunk| <= size
            && calls[2 * k + 1] == Call.Sleep(DelaySeconds))
      && Flatten(BulkedChunks(calls)) == eps
      && (eps == [] <==> calls == [])
  {
    var cs := Chunks(eps, size);
    ChunksFlatten(eps, size);
    ChunksSizes(eps, size);
    SubmissionAccepted(cs, accepts, before);
    PacedSpec(cs);
  }
}

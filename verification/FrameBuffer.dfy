/** Re-slicing audio: captured chunks of any length become fixed-size frames, and playback
    requests of any length are served from fixed-size frames. */
module FrameBuffer {
  import opened Arithmetic

  type Sample = int

  function Joined(frames: seq<seq<Sample>>): seq<Sample> {
    if frames == [] then [] else Joined(frames[..|frames| - 1]) + frames[|frames| - 1]
  }

  ghost predicate Sized(frames: seq<seq<Sample>>, size: nat) { forall f <- frames :: |f| == size }

  lemma JoinedLast(frames: seq<seq<Sample>>)
    requires frames != []
    ensures |Joined(frames)| == |Joined(frames[..|frames| - 1])| + |frames[|frames| - 1]|
  {
  }

  lemma {:induction false} JoinedLength(frames: seq<seq<Sample>>, size: nat)
    requires Sized(frames, size)
    ensures |Joined(frames)| == |frames| * size
  {
    if frames != [] {
      var p, f := frames[..|frames| - 1], frames[|frames| - 1];
      assert f in frames && forall g <- p :: g in frames;
      JoinedLength(p, size);
      JoinedLast(frames);
      TimesNext(|p|, size);
    }
  }

  lemma JoinedSnoc(frames: seq<seq<Sample>>, f: seq<Sample>)
    ensures Joined(frames + [f]) == Joined(frames) + f
  {
    assert (frames + [f])[..|frames|] == frames;
  }

  // ---- capture --------------------------------------------------------------------------------

  /** `frames` and the tail after them are the stream cut into frames of `size`. */
  ghost predicate Cut(stream: seq<Sample>, size: nat, frames: seq<seq<Sample>>, tail: seq<Sample>) {
    Sized(frames, size) && |tail| < size && Joined(frames) + tail == stream
  }

  /** New samples that complete a frame, and new samples that do not. */
  lemma CutGrows(stream: seq<Sample>, size: nat, frames: seq<seq<Sample>>, tail: seq<Sample>, rest: seq<Sample>)
    requires Cut(stream, size, frames, tail)
    ensures |tail| + |rest| == size ==> Cut(stream + rest, size, frames + [tail + rest], [])
    ensures |tail| + |rest| < size ==> Cut(stream + rest, size, frames, tail + rest)
  {
    JoinedSnoc(frames, tail + rest);
    assert Joined(frames) + (tail + rest) == Joined(frames) + tail + rest;
  }

  /** There is one such cut, so how the stream was chunked cannot be heard. */
  lemma {:induction false} CutIsUnique(stream: seq<Sample>, size: nat, f: seq<seq<Sample>>, t: seq<Sample>,
                                       g: seq<seq<Sample>>, u: seq<Sample>)
    requires Cut(stream, size, f, t) && Cut(stream, size, g, u)
    ensures f == g && t == u
  {
    JoinedLength(f, size);
    JoinedLength(g, size);
    SameQuotient(|f|, |t|, |g|, |u|, size);
    assert Joined(f) == stream[..|Joined(f)|] && Joined(g) == stream[..|Joined(g)|];
    SameFrames(f, g, size);
  }

  lemma SameQuotient(a: nat, r: nat, b: nat, s: nat, size: nat)
    requires a * size + r == b * size + s && r < size && s < size
    ensures a == b && r == s
  {
    TimesLess(a, b, size);
    TimesLess(b, a, size);
  }

  lemma {:induction false} SameFrames(f: seq<seq<Sample>>, g: seq<seq<Sample>>, size: nat)
    requires |f| == |g| && Sized(f, size) && Sized(g, size) && Joined(f) == Joined(g)
    ensures f == g
  {
    if f != [] {
      var p, q := f[..|f| - 1], g[..|g| - 1];
      JoinedLength(p, size);
      JoinedLength(q, size);
      assert Joined(p) == Joined(f)[..|p| * size] == Joined(q);
      assert f[|f| - 1] == Joined(f)[|p| * size..] == g[|g| - 1];
      SameFrames(p, q, size);
      assert f == p + [f[|f| - 1]] && g == q + [g[|g| - 1]];
    }
  }

  lemma Regroup(was: seq<Sample>, chunk: seq<Sample>, i: nat, j: nat)
    requires i <= j <= |chunk|
    ensures (was + chunk[..i]) + chunk[i..j] == was + chunk[..j]
    ensures chunk[..|chunk|] == chunk && chunk[i..|chunk|] == chunk[i..]
  {
  }

  class Accumulator {
    const frameSize: nat
    const frame: array<Sample>
    var pending: seq<Sample>
    var emitted: seq<seq<Sample>>
    ghost var pushed: seq<Sample>

    ghost predicate Valid()
      reads this
    {
      frameSize > 0 && frame.Length == frameSize && Cut(pushed, frameSize, emitted, pending)
    }

    constructor (size: nat)
      requires size > 0
      ensures Valid() && fresh(frame) && frameSize == size && pushed == []
    {
      frameSize := size;
      frame := new Sample[size](_ => 0);
      pending, emitted, pushed := [], [], [];
    }

    /** Emits every frame that is complete and keeps the rest for the next chunk. */
    method Push(chunk: seq<Sample>)
      requires Valid()
      modifies this, frame
      ensures Valid() && pushed == old(pushed) + chunk
    {
      var i: nat := 0;
      while true
        invariant i <= |chunk| && Valid() && pushed == old(pushed) + chunk[..i]
        decreases |chunk| - i + |pending|, |chunk| - i
      {
        var need := frameSize - |pending|;
        var avail := |chunk| - i;
        if avail < need {
          Stash(chunk[i..]);
          Regroup(old(pushed), chunk, i, |chunk|);
          return;
        }
        Emit(chunk[i..i + need]);
        Regroup(old(pushed), chunk, i, i + need);
        i := i + need;
      }
    }

    /** Keeps new samples that complete no frame. */
    method Stash(rest: seq<Sample>)
      requires Valid() && |pending| + |rest| < frameSize
      modifies this
      ensures Valid() && pushed == old(pushed) + rest
    {
      CutGrows(pushed, frameSize, emitted, pending, rest);
      pending := pending + rest;
      pushed := pushed + rest;
    }

    /** Hands out the frame that the new samples complete. */
    method Emit(rest: seq<Sample>)
      requires Valid() && |pending| + |rest| == frameSize
      modifies this, frame
      ensures Valid() && pending == [] && pushed == old(pushed) + rest
    {
      CutGrows(pushed, frameSize, emitted, pending, rest);
      FillFrame(rest);
      emitted := emitted + [frame[..]];
      pushed := pushed + rest;
      pending := [];
    }

    /** The pending samples followed by new ones fill the frame. */
    method FillFrame(rest: seq<Sample>)
      requires frame.Length == frameSize && |pending| + |rest| == frameSize
      modifies frame
      ensures frame[..] == pending + rest
    {
      for k := 0 to |pending|
        invariant frame[..k] == pending[..k]
      {
        frame[k] := pending[k];
      }
      for k := 0 to |rest|
        invariant frame[..|pending| + k] == pending + rest[..k]
      {
        frame[|pending| + k] := rest[k];
      }
    }
  }

  /** However a stream is chunked, the frames and the tail come out the same. */
  method ChunkingIsInaudible(a: seq<seq<Sample>>, b: seq<seq<Sample>>, size: nat)
    returns (x: Accumulator, y: Accumulator)
    requires size > 0 && Joined(a) == Joined(b)
    ensures x.emitted == y.emitted && x.pending == y.pending
  {
    x := Fed(a, size);
    y := Fed(b, size);
    CutIsUnique(Joined(a), size, x.emitted, x.pending, y.emitted, y.pending);
  }

  method Fed(chunks: seq<seq<Sample>>, size: nat) returns (x: Accumulator)
    requires size > 0
    ensures fresh(x) && x.Valid() && x.frameSize == size && x.pushed == Joined(chunks)
  {
    x := new Accumulator(size);
    for i := 0 to |chunks|
      invariant fresh(x) && fresh(x.frame) && x.Valid() && x.frameSize == size && x.pushed == Joined(chunks[..i])
    {
      assert chunks[..i + 1][..i] == chunks[..i];
      x.Push(chunks[i]);
    }
    assert chunks[..|chunks|] == chunks;
  }

  // ---- playback -------------------------------------------------------------------------------

  /** The first `n` frames the source would produce. */
  function Filled(fill: nat -> seq<Sample>, n: nat): seq<Sample> {
    if n == 0 then [] else Filled(fill, n - 1) + fill(n - 1)
  }

  /** What was played and what is left of the frame are the fills so far. */
  ghost predicate Feeds(fill: nat -> seq<Sample>, size: nat, played: seq<Sample>, frame: seq<Sample>,
                        pos: nat, fills: nat) {
    && |frame| == size && pos <= size
    && (if fills == 0 then played == [] && pos == size else played + frame[pos..] == Filled(fill, fills))
  }

  lemma FeedsNext(fill: nat -> seq<Sample>, size: nat, played: seq<Sample>, frame: seq<Sample>, fills: nat)
    requires Feeds(fill, size, played, frame, size, fills) && |fill(fills)| == size
    ensures Feeds(fill, size, played, fill(fills), 0, fills + 1)
  {
    assert fill(fills)[0..] == fill(fills) && frame[size..] == [] && played + [] == played;
  }

  lemma FeedsSome(fill: nat -> seq<Sample>, size: nat, played: seq<Sample>, frame: seq<Sample>,
                  pos: nat, fills: nat, n: nat)
    requires Feeds(fill, size, played, frame, pos, fills) && pos + n <= size && fills > 0
    ensures Feeds(fill, size, played + frame[pos..pos + n], frame, pos + n, fills)
  {
    assert frame[pos..] == frame[pos..pos + n] + frame[pos + n..];
    assert played + frame[pos..] == (played + frame[pos..pos + n]) + frame[pos + n..];
  }

  class Filler {
    const frameSize: nat
    const fill: nat -> seq<Sample>
    var frame: seq<Sample>
    var pos: nat
    var fills: nat
    ghost var played: seq<Sample>

    /** A frame is fetched only when a sample of it is due. */
    ghost predicate Valid()
      reads this
    {
      && frameSize > 0 && (forall k :: |fill(k)| == frameSize)
      && pos > 0 && Feeds(fill, frameSize, played, frame, pos, fills)
    }

    constructor (size: nat, fill: nat -> seq<Sample>)
      requires size > 0 && forall k :: |fill(k)| == size
      ensures Valid() && frameSize == size && this.fill == fill && played == [] && fills == 0
    {
      frameSize, this.fill := size, fill;
      frame := seq(size, _ => 0);
      pos, fills, played := size, 0, [];
    }

    method Pull(out: array<Sample>)
      requires Valid()
      modifies this, out
      ensures Valid() && played == old(played) + out[..]
    {
      var i := 0;
      while i < out.Length
        invariant i <= out.Length && Valid() && played == old(played) + out[..i]
      {
        var n := Serve(out, i);
        assert out[..i + n] == out[..i] + out[i..i + n];
        i := i + n;
      }
      assert out[..out.Length] == out[..];
    }

    /** Serves the next samples from the frame, fetching one when it is used up. */
    method Serve(out: array<Sample>, i: nat) returns (n: nat)
      requires Valid() && i < out.Length
      modifies this, out
      ensures Valid() && 0 < n <= out.Length - i
      ensures played == old(played) + out[i..i + n] && out[..i] == old(out[..i])
    {
      if pos == frameSize {
        FeedsNext(fill, frameSize, played, frame, fills);
        frame := fill(fills);
        pos := 0;
        fills := fills + 1;
      }
      n := if out.Length - i < frameSize - pos then out.Length - i else frameSize - pos;
      FeedsSome(fill, frameSize, played, frame, pos, fills, n);
      Copy(out, i, n);
      played := played + frame[pos..pos + n];
      pos := pos + n;
    }

    /** Copies `n` samples of the frame from the read position to `out[i..]`. */
    method Copy(out: array<Sample>, i: nat, n: nat)
      requires pos + n <= |frame| && i + n <= out.Length
      modifies out
      ensures out[i..i + n] == frame[pos..pos + n] && out[..i] == old(out[..i])
    {
      for k := 0 to n
        invariant out[i..i + k] == frame[pos..pos + k] && out[..i] == old(out[..i])
      {
        out[i + k] := frame[pos + k];
      }
    }
  }

  /** What was played is a prefix of the fills, and one fill fewer would not have sufficed. */
  lemma FewestFills(fill: nat -> seq<Sample>, size: nat, played: seq<Sample>, frame: seq<Sample>, pos: nat, fills: nat)
    requires (forall k :: |fill(k)| == size) && pos > 0 && fills > 0 && Feeds(fill, size, played, frame, pos, fills)
    ensures |Filled(fill, fills - 1)| < |played| <= |Filled(fill, fills)|
    ensures played == Filled(fill, fills)[..|played|]
  {
    FilledLength(fill, size, fills);
    FilledLength(fill, size, fills - 1);
  }

  lemma {:induction false} FilledLength(fill: nat -> seq<Sample>, size: nat, n: nat)
    requires forall k :: |fill(k)| == size
    ensures |Filled(fill, n)| == n * size
  {
    if n > 0 { FilledLength(fill, size, n - 1); }
  }
}

/** Cutting a byte stream into server-sent-event frames (`find_sse_frame_end` and the loop around it in
    piqo-server/src/supervisor.rs). A frame ends at an empty line, written LF LF or CR LF CR LF: a simplification
    of section 9.2.6 of the WHATWG HTML Living Standard. However the stream is cut into chunks, the frames are
    those of the whole stream. */
module Framing {
  import opened Prelude

  type Byte = b: nat | b < 256

  const LF: Byte := 10
  const CR: Byte := 13
  const LF_LF: seq<Byte> := [LF, LF]
  const CRLF_CRLF: seq<Byte> := [CR, LF, CR, LF]

  predicate At(buffer: seq<Byte>, i: nat, pattern: seq<Byte>) {
    i + |pattern| <= |buffer| && buffer[i..i + |pattern|] == pattern
  }

  /** The first place a pattern occurs. */
  function Position(buffer: seq<Byte>, pattern: seq<Byte>): (r: Option<nat>)
    ensures r.Some? ==> At(buffer, r.value, pattern) && forall j: nat :: j < r.value ==> !At(buffer, j, pattern)
    ensures r.None? ==> forall j: nat :: !At(buffer, j, pattern)
  {
    PositionFrom(buffer, pattern, 0)
  }

  function PositionFrom(buffer: seq<Byte>, pattern: seq<Byte>, i: nat): (r: Option<nat>)
    requires forall j: nat :: j < i ==> !At(buffer, j, pattern)
    ensures r.Some? ==> At(buffer, r.value, pattern) && forall j: nat :: j < r.value ==> !At(buffer, j, pattern)
    ensures r.None? ==> forall j: nat :: !At(buffer, j, pattern)
    decreases |buffer| - i
  {
    if i + |pattern| > |buffer| then None
    else if At(buffer, i, pattern) then Some(i)
    else PositionFrom(buffer, pattern, i + 1)
  }

  /** Where the first frame ends, and how long the delimiter is. */
  datatype Cut = Cut(index: nat, length: nat)

  function FindFrameEnd(buffer: seq<Byte>): Option<Cut> {
    var lf, crlf := Position(buffer, LF_LF), Position(buffer, CRLF_CRLF);
    if lf.Some? && crlf.Some? && crlf.value < lf.value then Some(Cut(crlf.value, 4))
    else if lf.Some? then Some(Cut(lf.value, 2))
    else if crlf.Some? then Some(Cut(crlf.value, 4))
    else None
  }

  predicate Delimited(buffer: seq<Byte>, i: nat, length: nat) {
    (length == 2 && At(buffer, i, LF_LF)) || (length == 4 && At(buffer, i, CRLF_CRLF))
  }

  ghost predicate IsCut(buffer: seq<Byte>, c: Cut) {
    && Delimited(buffer, c.index, c.length)
    && (forall j: nat, k: nat :: j < c.index ==> !Delimited(buffer, j, k))
  }

  /** The cut is at the earliest empty line of either kind, and there is none exactly when there is no empty line. */
  lemma FrameEndIsEarliest(buffer: seq<Byte>)
    ensures FindFrameEnd(buffer).Some? ==> IsCut(buffer, FindFrameEnd(buffer).value)
    ensures FindFrameEnd(buffer).None? <==> forall j: nat, k: nat :: !Delimited(buffer, j, k)
  {
    var lf, crlf := Position(buffer, LF_LF), Position(buffer, CRLF_CRLF);
    if lf.Some? {
      assert Delimited(buffer, lf.value, 2);
    }
    if crlf.Some? {
      assert Delimited(buffer, crlf.value, 4);
    }
  }

  lemma BytesAt(buffer: seq<Byte>, i: nat)
    ensures At(buffer, i, LF_LF) <==> i + 2 <= |buffer| && buffer[i] == LF && buffer[i + 1] == LF
    ensures At(buffer, i, CRLF_CRLF) <==>
              i + 4 <= |buffer| && buffer[i] == CR && buffer[i + 1] == LF && buffer[i + 2] == CR && buffer[i + 3] == LF
  {
    if i + 2 <= |buffer| {
      assert buffer[i..i + 2] == [buffer[i], buffer[i + 1]];
    }
    if i + 4 <= |buffer| {
      assert buffer[i..i + 4] == [buffer[i], buffer[i + 1], buffer[i + 2], buffer[i + 3]];
    }
  }

  /** Only one cut is possible: the two delimiters do not begin at the same place. */
  lemma CutUnique(buffer: seq<Byte>, c: Cut)
    requires IsCut(buffer, c)
    ensures FindFrameEnd(buffer) == Some(c)
  {
    FrameEndIsEarliest(buffer);
    var d := FindFrameEnd(buffer).value;
    BytesAt(buffer, c.index);
    BytesAt(buffer, d.index);
  }

  lemma DelimitedMore(a: seq<Byte>, b: seq<Byte>, i: nat, k: nat)
    ensures Delimited(a, i, k) ==> Delimited(a + b, i, k)
    ensures i + k <= |a| && Delimited(a + b, i, k) ==> Delimited(a, i, k)
  {
    if i + k <= |a| {
      assert (a + b)[i..i + k] == a[i..i + k];
    }
  }

  /** A cut found in a buffer stays the first cut when more bytes arrive: a delimiter cannot begin earlier and be
      completed later. */
  lemma CutStable(a: seq<Byte>, b: seq<Byte>)
    requires FindFrameEnd(a).Some?
    ensures FindFrameEnd(a + b) == FindFrameEnd(a)
  {
    FrameEndIsEarliest(a);
    var c := FindFrameEnd(a).value;
    DelimitedMore(a, b, c.index, c.length);
    forall j: nat, k: nat | j < c.index ensures !Delimited(a + b, j, k) {
      DelimitedMore(a, b, j, k);
      BytesAt(a, c.index);
      BytesAt(a + b, j);
    }
    CutUnique(a + b, c);
  }

  // ---------------------------------------------------------------- all frames of a buffer

  /** A frame, and the delimiter that ended it. */
  datatype Framed = Framed(frame: seq<Byte>, delimiter: seq<Byte>)

  function FirstFrame(buffer: seq<Byte>): Framed
    requires FindFrameEnd(buffer).Some?
  {
    var c := FindFrameEnd(buffer).value;
    FrameEndIsEarliest(buffer);
    Framed(buffer[..c.index], buffer[c.index..c.index + c.length])
  }

  /** What is left after the first frame is drained. */
  function Drained(buffer: seq<Byte>): (r: seq<Byte>)
    requires FindFrameEnd(buffer).Some?
    ensures |r| < |buffer|
  {
    var c := FindFrameEnd(buffer).value;
    FrameEndIsEarliest(buffer);
    buffer[c.index + c.length..]
  }

  function Frames(buffer: seq<Byte>): seq<Framed>
    decreases |buffer|
  {
    if FindFrameEnd(buffer).None? then []
    else [FirstFrame(buffer)] + Frames(Drained(buffer))
  }

  /** The bytes that belong to no complete frame. */
  function Rest(buffer: seq<Byte>): seq<Byte>
    decreases |buffer|
  {
    if FindFrameEnd(buffer).None? then buffer else Rest(Drained(buffer))
  }

  lemma DrainedMore(a: seq<Byte>, b: seq<Byte>)
    requires FindFrameEnd(a).Some?
    ensures FindFrameEnd(a + b).Some?
    ensures FirstFrame(a + b) == FirstFrame(a)
    ensures Drained(a + b) == Drained(a) + b
  {
    CutStable(a, b);
    FrameEndIsEarliest(a);
    var c := FindFrameEnd(a).value;
    assert (a + b)[..c.index] == a[..c.index];
    assert (a + b)[c.index..c.index + c.length] == a[c.index..c.index + c.length];
  }

  /** Cutting a stream in two anywhere changes no frame. */
  lemma {:induction false} FramesSplit(a: seq<Byte>, b: seq<Byte>)
    ensures Frames(a + b) == Frames(a) + Frames(Rest(a) + b)
    ensures Rest(a + b) == Rest(Rest(a) + b)
    decreases |a|
  {
    if FindFrameEnd(a).Some? {
      DrainedMore(a, b);
      FramesSplit(Drained(a), b);
    }
  }

  function Joined(frames: seq<Framed>): seq<Byte> {
    if frames == [] then [] else frames[0].frame + frames[0].delimiter + Joined(frames[1..])
  }

  /** The frames and the rest are the buffer, taken apart at its empty lines: nothing is lost, no frame contains an
      empty line, and neither does the rest. */
  lemma {:induction false} FramesPartition(buffer: seq<Byte>)
    ensures Joined(Frames(buffer)) + Rest(buffer) == buffer
    ensures FindFrameEnd(Rest(buffer)).None?
    ensures forall i :: 0 <= i < |Frames(buffer)| ==>
              && FindFrameEnd(Frames(buffer)[i].frame).None?
              && Frames(buffer)[i].delimiter in {LF_LF, CRLF_CRLF}
    decreases |buffer|
  {
    hide FindFrameEnd, FirstFrame, Drained;
    if FindFrameEnd(buffer).Some? {
      FramesPartition(Drained(buffer));
      FirstFrameClean(buffer);
      FirstFrameGlue(buffer);
      var first, rest := FirstFrame(buffer), Drained(buffer);
      assert Frames(buffer)[1..] == Frames(rest);
      assert Joined(Frames(buffer)) == first.frame + first.delimiter + Joined(Frames(rest));
      assert first.frame + first.delimiter + Joined(Frames(rest)) + Rest(rest)
          == first.frame + first.delimiter + (Joined(Frames(rest)) + Rest(rest));
    }
  }

  lemma FirstFrameGlue(buffer: seq<Byte>)
    requires FindFrameEnd(buffer).Some?
    ensures FirstFrame(buffer).frame + FirstFrame(buffer).delimiter + Drained(buffer) == buffer
  {
  }

  lemma FirstFrameClean(buffer: seq<Byte>)
    requires FindFrameEnd(buffer).Some?
    ensures FindFrameEnd(FirstFrame(buffer).frame).None?
    ensures FirstFrame(buffer).delimiter in {LF_LF, CRLF_CRLF}
  {
    FrameEndIsEarliest(buffer);
    var frame := FirstFrame(buffer).frame;
    var tail := buffer[|frame|..];
    assert buffer == frame + tail;
    FrameEndIsEarliest(frame);
    if FindFrameEnd(frame).Some? {
      CutStable(frame, tail);
    }
  }

  /** Every byte of a chunk-by-chunk reading: the frames collected so far and the bytes kept. */
  method ReadChunks(chunks: seq<seq<Byte>>) returns (frames: seq<Framed>, kept: seq<Byte>)
    ensures frames == Frames(Concat(chunks)) && kept == Rest(Concat(chunks))
  {
    frames, kept := [], [];
    for i := 0 to |chunks|
      invariant frames == Frames(Concat(chunks[..i])) && kept == Rest(Concat(chunks[..i]))
    {
      assert chunks[..i + 1][..i] == chunks[..i];
      FramesSplit(Concat(chunks[..i]), chunks[i]);
      kept := kept + chunks[i];
      ghost var before, start := frames, kept;
      while FindFrameEnd(kept).Some?
        invariant frames + Frames(kept) == before + Frames(start) && Rest(kept) == Rest(start)
        decreases |kept|
      {
        frames := frames + [FirstFrame(kept)];
        kept := Drained(kept);
      }
    }
    assert chunks[..|chunks|] == chunks;
  }

  function Concat(chunks: seq<seq<Byte>>): seq<Byte> {
    if chunks == [] then [] else Concat(chunks[..|chunks| - 1]) + chunks[|chunks| - 1]
  }
}

/**
 * Splitting the accumulated stream text on the frame delimiter "\r\n", as
 * `String.prototype.split("\r\n")` does, followed by the `splice` that keeps
 * the last part back: every part but the last is a complete frame, the last
 * (possibly empty) part is the unterminated tail.
 */
module Framing {
  import opened Wrappers

  /** The delimiter "\r\n" starts at position `i` of `s`. */
  predicate DelimAt(s: string, i: int) {
    0 <= i && i + 1 < |s| && s[i] == '\r' && s[i + 1] == '\n'
  }

  /** `s` contains no "\r\n". */
  predicate NoDelim(s: string) {
    forall i :: 0 <= i < |s| ==> !DelimAt(s, i)
  }

  /** No part of `parts` contains "\r\n". */
  predicate AllNoDelim(parts: seq<string>) {
    forall k :: 0 <= k < |parts| ==> NoDelim(parts[k])
  }

  /** Text without a carriage return has no delimiter. */
  lemma NoCarriageReturnNoDelim(s: string)
    requires '\r' !in s
    ensures NoDelim(s)
  {
    forall i | 0 <= i < |s| ensures !DelimAt(s, i) {
      assert s[i] in s;
    }
  }

  /** The position of the first delimiter in `s`, if any. */
  function FindDelim(s: string): (r: Option<nat>)
    ensures r.None? <==> NoDelim(s)
    ensures r.Some? ==> DelimAt(s, r.value) && NoDelim(s[..r.value + 1])
    decreases |s|
  {
    if |s| < 2 then None
    else if s[0] == '\r' && s[1] == '\n' then assert DelimAt(s, 0); Some(0)
    else
      match FindDelim(s[1..])
      case None =>
        assert !DelimAt(s, 0);
        assert s[1..|s|] == s[1..] && s[..|s|] == s;
        NoDelimCons(s, |s|);
        None
      case Some(j) =>
        assert DelimAt(s[1..], j);
        assert !DelimAt(s, 0);
        assert s[1..][..j + 1] == s[1..j + 2];
        NoDelimCons(s, j + 2);
        assert DelimAt(s, j + 1);
        Some(j + 1)
  }

  /** A delimiter-free tail after a first character that starts no delimiter. */
  lemma NoDelimCons(s: string, n: nat)
    requires 1 <= n <= |s|
    requires !DelimAt(s, 0) && NoDelim(s[1..n])
    ensures NoDelim(s[..n])
  {
    forall p | 0 <= p < n ensures !DelimAt(s[..n], p) {
      if p > 0 {
        assert !DelimAt(s[1..n], p - 1);
      }
    }
  }

  /** `s.split("\r\n")`: the text between consecutive delimiters, left to right. */
  function Split(s: string): (parts: seq<string>)
    ensures |parts| >= 1
    decreases |s|
  {
    match FindDelim(s)
    case None => [s]
    case Some(i) => [s[..i]] + Split(s[i + 2..])
  }

  /** The complete frames of `s`: every part of the split but the last. */
  function Frames(s: string): seq<string> {
    var parts := Split(s);
    parts[..|parts| - 1]
  }

  /** The unterminated tail of `s`: the last part of the split. */
  function Rest(s: string): string {
    var parts := Split(s);
    parts[|parts| - 1]
  }

  /** Frames each followed by the delimiter, concatenated. */
  function Terminated(frames: seq<string>): string {
    if frames == [] then "" else frames[0] + "\r\n" + Terminated(frames[1..])
  }

  /** Concatenation of a sequence of chunks. */
  function Concat(chunks: seq<string>): string {
    if chunks == [] then "" else chunks[0] + Concat(chunks[1..])
  }

  // ----- unfolding Frames and Rest -----------------------------------------

  lemma FramesOnNoDelim(s: string)
    requires NoDelim(s)
    ensures Frames(s) == [] && Rest(s) == s
  {
  }

  lemma FramesOnDelim(s: string, i: nat)
    requires FindDelim(s) == Some(i)
    ensures Frames(s) == [s[..i]] + Frames(s[i + 2..])
    ensures Rest(s) == Rest(s[i + 2..])
  {
    SplitOnDelim(s, i);
    ConsParts(s[..i], Split(s[i + 2..]));
  }

  lemma SplitOnDelim(s: string, i: nat)
    requires FindDelim(s) == Some(i)
    ensures Split(s) == [s[..i]] + Split(s[i + 2..])
  {
  }

  /** Dropping the last part of a split that starts with `f`. */
  lemma ConsParts(f: string, parts: seq<string>)
    requires |parts| >= 1
    ensures ([f] + parts)[..|parts|] == [f] + parts[..|parts| - 1]
    ensures ([f] + parts)[|parts|] == parts[|parts| - 1]
  {
  }

  lemma {:induction false} TerminatedAppend(a: seq<string>, b: seq<string>)
    ensures Terminated(a + b) == Terminated(a) + Terminated(b)
  {
    if a == [] {
      assert a + b == b;
    } else {
      assert (a + b)[0] == a[0];
      assert (a + b)[1..] == a[1..] + b;
      TerminatedAppend(a[1..], b);
    }
  }

  /** A delimiter right after delimiter-free text is the first one. */
  lemma {:induction false} FirstDelimAfter(f: string, t: string)
    requires NoDelim(f)
    ensures FindDelim(f + "\r\n" + t) == Some(|f|)
  {
    var s := f + "\r\n" + t;
    if f != [] {
      assert !(s[0] == '\r' && s[1] == '\n') by {
        if |f| >= 2 { assert !DelimAt(f, 0); }
      }
      assert NoDelim(f[1..]) by {
        forall p | 0 <= p < |f| - 1 ensures !DelimAt(f[1..], p) {
          assert !DelimAt(f, p + 1);
        }
      }
      FirstDelimAfter(f[1..], t);
      assert s[1..] == f[1..] + "\r\n" + t;
    }
  }

  // ----- the properties of the split ---------------------------------------

  /** No frame and no tail contains the delimiter. */
  lemma {:induction false} SplitPartsHaveNoDelim(s: string)
    ensures AllNoDelim(Frames(s))
    ensures NoDelim(Rest(s))
    decreases |s|
  {
    var r := FindDelim(s);
    if r.None? {
      FramesOnNoDelim(s);
    } else {
      var i := r.value;
      FramesOnDelim(s, i);
      SplitPartsHaveNoDelim(s[i + 2..]);
      PrefixNoDelim(s, i);
      AllNoDelimAppend([s[..i]], Frames(s[i + 2..]));
    }
  }

  /** Text before the first delimiter has none. */
  lemma PrefixNoDelim(s: string, i: nat)
    requires i < |s| && NoDelim(s[..i + 1])
    ensures NoDelim(s[..i])
  {
    forall p | 0 <= p < i ensures !DelimAt(s[..i], p) {
      assert !DelimAt(s[..i + 1], p);
    }
  }

  /** Nothing is lost or duplicated: frames with their delimiters, then the tail, give back the text. */
  lemma {:induction false} SplitConserves(s: string)
    ensures Terminated(Frames(s)) + Rest(s) == s
    decreases |s|
  {
    var r := FindDelim(s);
    if r.None? {
      FramesOnNoDelim(s);
    } else {
      var i := r.value;
      var f, t := s[..i], s[i + 2..];
      FramesOnDelim(s, i);
      SplitConserves(t);
      TerminatedCons(f, Frames(t));
      CutAtDelim(s, i);
      AppendAssoc(f + "\r\n", Terminated(Frames(t)), Rest(t));
    }
  }

  /** The split undoes `Terminated`: delimiter-free frames and tail are recovered exactly. */
  lemma {:induction false} SplitOfTerminated(frames: seq<string>, tail: string)
    requires AllNoDelim(frames)
    requires NoDelim(tail)
    ensures Frames(Terminated(frames) + tail) == frames
    ensures Rest(Terminated(frames) + tail) == tail
  {
    if frames == [] {
      assert Terminated(frames) + tail == tail;
      FramesOnNoDelim(tail);
    } else {
      var f, more := frames[0], Terminated(frames[1..]) + tail;
      var s := Terminated(frames) + tail;
      assert s == f + "\r\n" + more;
      FirstDelimAfter(f, more);
      FramesOnDelim(s, |f|);
      assert s[..|f|] == f && s[|f| + 2..] == more;
      SplitOfTerminated(frames[1..], tail);
    }
  }

  lemma TerminatedCons(f: string, fs: seq<string>)
    ensures Terminated([f] + fs) == f + "\r\n" + Terminated(fs)
  {
    assert ([f] + fs)[0] == f && ([f] + fs)[1..] == fs;
  }

  lemma CutAtDelim(s: string, i: nat)
    requires DelimAt(s, i)
    ensures s == s[..i] + "\r\n" + s[i + 2..]
  {
  }

  lemma AppendAssoc(a: string, b: string, c: string)
    ensures a + b + c == a + (b + c)
  {
  }

  /** Two sequences of delimiter-free frames concatenate to one. */
  lemma AllNoDelimAppend(a: seq<string>, b: seq<string>)
    requires AllNoDelim(a) && AllNoDelim(b)
    ensures AllNoDelim(a + b)
  {
    forall k | 0 <= k < |a + b| ensures NoDelim((a + b)[k]) {
      if k >= |a| { assert (a + b)[k] == b[k - |a|]; }
    }
  }

  /**
   * Feeding `x` and then `y` splits like feeding `x + y`: the frames of the
   * whole are the frames of `x` followed by those of `x`'s tail extended by `y`.
   */
  lemma {:induction false} SplitAppend(x: string, y: string)
    ensures Frames(x + y) == Frames(x) + Frames(Rest(x) + y)
    ensures Rest(x + y) == Rest(Rest(x) + y)
  {
    var fx, rx := Frames(x), Rest(x);
    var ry := rx + y;
    var fy, rr := Frames(ry), Rest(ry);
    SplitConserves(x);
    SplitConserves(ry);
    SplitPartsHaveNoDelim(x);
    SplitPartsHaveNoDelim(ry);
    TerminatedAppend(fx, fy);
    var tx, ty := Terminated(fx), Terminated(fy);
    assert x + y == tx + ty + rr by {
      assert x == tx + rx;
      assert ry == ty + rr;
      AppendAssoc(tx, rx, y);
      AppendAssoc(tx, ty, rr);
    }
    AllNoDelimAppend(fx, fy);
    SplitOfTerminated(fx + fy, rr);
  }

  /** The frames and tail left after feeding `chunks` one by one to a buffer. */
  function FeedChunks(buffer: string, chunks: seq<string>): (string, seq<string>)
    decreases |chunks|
  {
    if chunks == [] then (buffer, [])
    else
      var data := buffer + chunks[0];
      var later := FeedChunks(Rest(data), chunks[1..]);
      (later.0, Frames(data) + later.1)
  }

  /**
   * Chunking independence: however the text is cut into chunks (a cut between
   * '\r' and '\n' included), the frames and the final buffer are those of
   * splitting the whole text at once.
   */
  lemma {:induction false} FeedChunksSplitsWhole(buffer: string, chunks: seq<string>)
    requires NoDelim(buffer)
    ensures FeedChunks(buffer, chunks) == (Rest(buffer + Concat(chunks)), Frames(buffer + Concat(chunks)))
    decreases |chunks|
  {
    if chunks == [] {
      assert buffer + Concat(chunks) == buffer;
      FramesOnNoDelim(buffer);
    } else {
      var data, more := buffer + chunks[0], Concat(chunks[1..]);
      assert buffer + Concat(chunks) == data + more;
      SplitPartsHaveNoDelim(data);
      FeedChunksSplitsWhole(Rest(data), chunks[1..]);
      SplitAppend(data, more);
    }
  }
}

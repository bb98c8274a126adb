/** Splitting a byte stream into frames, for any delimiter that does not change its mind
    once it has found a whole frame. */
module TcpFraming {

  newtype byte = x: int | 0 <= x < 256

  type Delimiter = seq<byte> -> int

  /** A delimiter returns 0 or a positive length; once that length is buffered, further
      bytes do not change it. It may announce a frame longer than what it was given. */
  ghost predicate Stable(d: Delimiter) {
    && (forall s: seq<byte> :: d(s) >= 0)
    && (forall s: seq<byte>, t: seq<byte> {:trigger d(s + t)} :: 0 < d(s) <= |s| ==> d(s + t) == d(s))
  }

  /** The length of the complete frame at the front of s, 0 if there is none. */
  function FrameLen(d: Delimiter, s: seq<byte>): (n: nat)
    ensures n <= |s|
  {
    if 0 < d(s) <= |s| then d(s) else 0
  }

  function Frames(d: Delimiter, s: seq<byte>): seq<seq<byte>>
    decreases |s|
  {
    var n := FrameLen(d, s);
    if n == 0 then [] else [s[..n]] + Frames(d, s[n..])
  }

  function Rest(d: Delimiter, s: seq<byte>): seq<byte>
    decreases |s|
  {
    var n := FrameLen(d, s);
    if n == 0 then s else Rest(d, s[n..])
  }

  function Concat(f: seq<seq<byte>>): seq<byte> {
    if f == [] then [] else f[0] + Concat(f[1..])
  }

  lemma {:induction false} ConcatAppend(f: seq<seq<byte>>, g: seq<seq<byte>>)
    ensures Concat(f + g) == Concat(f) + Concat(g)
  {
    if f == [] {
      assert f + g == g;
    } else {
      var h := f[1..];
      ConcatAppend(h, g);
      assert (f + g)[0] == f[0] && (f + g)[1..] == h + g;
      assert f[0] + (Concat(h) + Concat(g)) == (f[0] + Concat(h)) + Concat(g);
    }
  }

  /** Nothing is lost: the frames and the rest are the stream, and the rest holds no frame. */
  lemma {:induction false} FramesAndRest(d: Delimiter, s: seq<byte>)
    ensures Concat(Frames(d, s)) + Rest(d, s) == s
    ensures FrameLen(d, Rest(d, s)) == 0
    decreases |s|
  {
    var n := FrameLen(d, s);
    if n > 0 {
      FramesAndRest(d, s[n..]);
      assert Frames(d, s)[1..] == Frames(d, s[n..]);
    }
  }

  /** CHUNKING DOES NOT MATTER. Splitting s now and its rest together with t later gives
      the frames of s + t. */
  lemma {:induction false} FramesAppend(d: Delimiter, s: seq<byte>, t: seq<byte>)
    requires Stable(d)
    ensures Frames(d, s + t) == Frames(d, s) + Frames(d, Rest(d, s) + t)
    decreases |s|
  {
    var n := FrameLen(d, s);
    if n > 0 {
      assert d(s + t) == d(s);
      assert (s + t)[..n] == s[..n] && (s + t)[n..] == s[n..] + t;
      FramesAppend(d, s[n..], t);
    }
  }

  /** The delimiter of the protocol: fixed-size messages. */
  function Delimit(msgSize: nat): Delimiter {
    (s: seq<byte>) => if |s| >= msgSize then msgSize else 0
  }

  lemma DelimitIsStable(msgSize: nat)
    ensures Stable(Delimit(msgSize))
  {
  }

  /** With fixed-size messages frame k is bytes k*m .. (k+1)*m of the stream, and all whole
      blocks are frames. */
  lemma {:induction false} FramesAreBlocks(m: nat, s: seq<byte>, k: nat)
    requires m > 0 && k < |Frames(Delimit(m), s)|
    ensures (k + 1) * m <= |s| && Frames(Delimit(m), s)[k] == s[k * m..(k + 1) * m]
    decreases k
  {
    if k > 0 {
      FramesAreBlocks(m, s[m..], k - 1);
      assert k * m == (k - 1) * m + m && (k + 1) * m == k * m + m;
      assert s[m..][(k - 1) * m..k * m] == s[k * m..(k + 1) * m];
    }
  }

  lemma {:induction false} FrameCount(m: nat, s: seq<byte>)
    requires m > 0
    ensures |Frames(Delimit(m), s)| * m <= |s| < (|Frames(Delimit(m), s)| + 1) * m
    decreases |s|
  {
    if |s| >= m {
      FrameCount(m, s[m..]);
      var k := |Frames(Delimit(m), s[m..])|;
      assert (k + 1) * m == k * m + m && (k + 2) * m == (k + 1) * m + m;
    }
  }

  /** WRITER TO READER. If the writer put whole messages of size m and then an unfinished
      one on the wire, and the reader has received any part of it so far, the frames it can
      hand out are the first messages, in order; with all of it received, all messages. */
  lemma {:induction false} RoundTrip(m: nat, msgs: seq<seq<byte>>, tail: seq<byte>, received: seq<byte>)
    requires m > 0 && |tail| < m && forall i :: 0 <= i < |msgs| ==> |msgs[i]| == m
    requires received <= Concat(msgs) + tail
    ensures Frames(Delimit(m), received) <= msgs
    ensures |received| >= |Concat(msgs)| ==> Frames(Delimit(m), received) == msgs
    decreases |msgs|
  {
    var wire := Concat(msgs) + tail;
    if msgs == [] {
      assert wire == tail;
    } else if |received| >= m {
      assert wire == msgs[0] + (Concat(msgs[1..]) + tail);
      assert received[..m] == msgs[0];
      assert received[m..] <= Concat(msgs[1..]) + tail;
      RoundTrip(m, msgs[1..], tail, received[m..]);
    } else {
      assert |Concat(msgs)| >= m;
    }
  }
}

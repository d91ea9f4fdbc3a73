/** The export stream: each event as a big-endian 32-bit size and its bytes. */
module Frames {
  import opened Wrappers

  const U32 := 0x1_0000_0000

  /** `write_u32(n as u32)`: big-endian, keeping the low 32 bits. */
  function SizeBytes(n: nat): (b: Bytes)
    ensures |b| == 4
  {
    var m := n % U32;
    [(m / 0x100_0000) as byte, (m / 0x1_0000 % 0x100) as byte, (m / 0x100 % 0x100) as byte, (m % 0x100) as byte]
  }

  function ReadSize(b: Bytes): nat
    requires |b| >= 4
  {
    b[0] as nat * 0x100_0000 + b[1] as nat * 0x1_0000 + b[2] as nat * 0x100 + b[3] as nat
  }

  /** `write_data` */
  function Frame(e: Bytes): Bytes { SizeBytes(|e|) + e }

  /** What `export` writes for a log. */
  function Encode(log: seq<Bytes>): Bytes {
    if log == [] then [] else Frame(log[0]) + Encode(log[1..])
  }

  /** `read_data`: one event and the rest of the stream, or the end of input. */
  function ReadFrame(stream: Bytes): (r: Option<(Bytes, Bytes)>)
    ensures r.Some? ==> |r.value.1| < |stream|
  {
    if |stream| < 4 then None
    else
      var size, rest := ReadSize(stream), stream[4..];
      if |rest| < size then None else Some((rest[..size], rest[size..]))
  }

  /** The events that repeated `read_data` yields before it first fails. */
  function Decode(stream: Bytes): seq<Bytes>
    decreases |stream|
  {
    match ReadFrame(stream)
    case None => []
    case Some((e, rest)) => [e] + Decode(rest)
  }

  /** `done` are the events read so far and `reader` is what is left of the stream. */
  ghost predicate Progress(stream: Bytes, done: seq<Bytes>, reader: Bytes) {
    Decode(stream) == done + Decode(reader)
  }

  lemma ProgressStart(stream: Bytes)
    ensures Progress(stream, [], stream)
  {
  }

  lemma ProgressStep(stream: Bytes, done: seq<Bytes>, reader: Bytes)
    requires Progress(stream, done, reader) && ReadFrame(reader).Some?
    ensures Progress(stream, done + [ReadFrame(reader).value.0], ReadFrame(reader).value.1)
    ensures |done| < |Decode(stream)|
  {
  }

  lemma ProgressEnd(stream: Bytes, done: seq<Bytes>, reader: Bytes)
    requires Progress(stream, done, reader) && ReadFrame(reader).None?
    ensures done == Decode(stream)
  {
  }

  lemma SizeRoundTrip(n: nat, rest: Bytes)
    ensures ReadSize(SizeBytes(n) + rest) == n % U32
  {
    var m := n % U32;
    var b := SizeBytes(n) + rest;
    assert b[0] as nat == m / 0x100_0000 && b[1] as nat == m / 0x1_0000 % 0x100;
    assert b[2] as nat == m / 0x100 % 0x100 && b[3] as nat == m % 0x100;
    assert m / 0x1_0000 == m / 0x100 / 0x100 && m / 0x100_0000 == m / 0x1_0000 / 0x100;
  }

  /** What is written, byte by byte: four bytes, the first the highest, that stand
      for the size of the event modulo 2^32, and then the event itself. */
  lemma FrameBytes(e: Bytes)
    ensures var f, n := Frame(e), |e| % 0x1_0000_0000;
            && |f| == 4 + |e| && f[4..] == e
            && f[0] as int * 0x100_0000 + f[1] as int * 0x1_0000 + f[2] as int * 0x100 + f[3] as int == n
    ensures |e| < 0x1_0000_0000 ==>
              var f := Frame(e);
              f[0] as int * 0x100_0000 + f[1] as int * 0x1_0000 + f[2] as int * 0x100 + f[3] as int == |e|
  {
    SizeRoundTrip(|e|, e);
  }

  /** What is read, byte by byte: nothing from less than four bytes, or from less
      than the size they stand for; otherwise that many bytes, and what follows. */
  lemma ReadBytes(stream: Bytes)
    ensures |stream| < 4 ==> ReadFrame(stream).None?
    ensures |stream| >= 4 ==>
              var n := stream[0] as int * 0x100_0000 + stream[1] as int * 0x1_0000 + stream[2] as int * 0x100
                       + stream[3] as int;
              ReadFrame(stream) == if |stream| < 4 + n then None else Some((stream[4..4 + n], stream[4 + n..]))
  {
    if |stream| >= 4 && |stream| >= 4 + ReadSize(stream) {
      var n := ReadSize(stream);
      assert stream[4..][..n] == stream[4..4 + n] && stream[4..][n..] == stream[4 + n..];
    }
  }

  /** Reading a frame yields the event cut to the low 32 bits of its size. */
  lemma ReadOfFrame(e: Bytes, rest: Bytes)
    ensures ReadFrame(Frame(e) + rest)
         == Some((e[..|e| % 0x1_0000_0000], e[|e| % 0x1_0000_0000..] + rest))
  {
    var stream := Frame(e) + rest;
    assert stream == SizeBytes(|e|) + (e + rest);
    SizeRoundTrip(|e|, e + rest);
    assert stream[4..] == e + rest;
    var size := |e| % U32;
    assert (e + rest)[..size] == e[..size];
    assert (e + rest)[size..] == e[size..] + rest;
  }

  /** Export then import returns the log exactly when every event is shorter
      than 2^32 bytes: longer sizes are truncated when written. */
  lemma {:induction false} RoundTripExact(log: seq<Bytes>)
    ensures Decode(Encode(log)) == log <==> forall e | e in log :: |e| < 0x1_0000_0000
  {
    hide SizeBytes, ReadSize;
    if log != [] {
      var e, tail := log[0], log[1..];
      ReadOfFrame(e, Encode(tail));
      assert log == [e] + tail;
      if |e| < U32 {
        RoundTripExact(tail);
        assert e[|e| % U32..] + Encode(tail) == Encode(tail);
        assert e[..|e| % U32] == e;
      } else {
        assert e in log;
        assert Decode(Encode(log))[0] == e[..|e| % U32];
      }
    }
  }

  /** How many frames fit in the first `c` bytes of the export of a log. */
  function Complete(log: seq<Bytes>, c: nat): (m: nat)
    ensures m <= |log|
  {
    if log == [] || c < |Frame(log[0])| then 0 else 1 + Complete(log[1..], c - |Frame(log[0])|)
  }

  /** `Complete` is the largest number of whole frames within `c` bytes. */
  lemma {:induction false} CompleteIsLargest(log: seq<Bytes>, c: nat)
    ensures |Encode(log[..Complete(log, c)])| <= c
    ensures Complete(log, c) < |log| ==> c < |Encode(log[..Complete(log, c) + 1])|
  {
    if log != [] {
      var m := Complete(log, c);
      if c < |Frame(log[0])| {
        assert log[..1][1..] == [];
        assert Encode(log[..1]) == Frame(log[0]) + Encode(log[..1][1..]);
      } else {
        var d := c - |Frame(log[0])|;
        CompleteIsLargest(log[1..], d);
        assert log[..m][1..] == log[1..][..m - 1];
        if m < |log| {
          assert log[..m + 1][1..] == log[1..][..m];
        }
      }
    }
  }

  /** Truncated import: a byte prefix of an export decodes to exactly the events
      whose frames are complete, a prefix of the log. */
  lemma {:induction false} TruncatedImport(log: seq<Bytes>, c: nat)
    requires forall e | e in log :: |e| < 0x1_0000_0000
    requires c <= |Encode(log)|
    ensures Decode(Encode(log)[..c]) == log[..Complete(log, c)]
  {
    hide ReadFrame, Frame;
    if log != [] {
      var e, tail := log[0], log[1..];
      var f := Frame(e);
      assert e in log && forall x | x in tail :: x in log;
      if c < |f| {
        IncompleteFrame(e, c);
        assert Encode(log)[..c] == f[..c];
      } else {
        TruncatedImport(tail, c - |f|);
        FirstFrameWhole(log, c);
      }
    }
  }

  /** When the first frame is whole, the rest is read from what follows it. */
  lemma FirstFrameWhole(log: seq<Bytes>, c: nat)
    requires log != [] && |log[0]| < U32 && |Frame(log[0])| <= c <= |Encode(log)|
    ensures Encode(log)[..c] == Frame(log[0]) + Encode(log[1..])[..c - |Frame(log[0])|]
    ensures Decode(Encode(log)[..c]) == [log[0]] + Decode(Encode(log[1..])[..c - |Frame(log[0])|])
    ensures log[..Complete(log, c)] == [log[0]] + log[1..][..Complete(log[1..], c - |Frame(log[0])|)]
  {
    hide ReadFrame, Frame, Decode;
    var rest := Encode(log[1..])[..c - |Frame(log[0])|];
    assert Encode(log)[..c] == Frame(log[0]) + rest;
    WholeFrame(log[0], rest);
  }

  lemma WholeFrame(e: Bytes, rest: Bytes)
    requires |e| < U32
    ensures Decode(Frame(e) + rest) == [e] + Decode(rest)
  {
    hide ReadFrame, Frame;
    ReadOfFrame(e, rest);
    assert e[|e| % U32..] + rest == rest && e[..|e| % U32] == e;
  }

  lemma IncompleteFrame(e: Bytes, c: nat)
    requires |e| < U32 && c < |Frame(e)|
    ensures ReadFrame(Frame(e)[..c]) == None
  {
    if c >= 4 {
      var cut := Frame(e)[..c];
      assert cut == SizeBytes(|e|) + cut[4..];
      SizeRoundTrip(|e|, cut[4..]);
    }
  }

  lemma Regroup(x: Bytes, y: Bytes, z: Bytes)
    ensures x + (y + z) == (x + y) + z
  {
  }

  lemma {:induction false} EncodeConcat(a: seq<Bytes>, b: seq<Bytes>)
    ensures Encode(a + b) == Encode(a) + Encode(b)
  {
    hide Frame;
    if a == [] {
      assert a + b == b;
    } else {
      EncodeConcat(a[1..], b);
      assert (a + b)[0] == a[0] && (a + b)[1..] == a[1..] + b;
      Regroup(Frame(a[0]), Encode(a[1..]), Encode(b));
    }
  }

  /** The frames of the first `n` events. */
  function EncodeFirst(log: seq<Bytes>, n: nat): Bytes
    requires n <= |log|
  {
    if n == 0 then [] else EncodeFirst(log, n - 1) + Frame(log[n - 1])
  }

  lemma {:induction false} EncodeFirstIsEncode(log: seq<Bytes>, n: nat)
    requires n <= |log|
    ensures EncodeFirst(log, n) == Encode(log[..n])
  {
    hide Frame;
    if n > 0 {
      EncodeFirstIsEncode(log, n - 1);
      EncodeConcat(log[..n - 1], [log[n - 1]]);
      assert log[..n] == log[..n - 1] + [log[n - 1]];
      assert Encode([log[n - 1]]) == Frame(log[n - 1]) + Encode([log[n - 1]][1..]);
    }
  }
}

/** Frame multiplexing (MuxWriter, MuxReader, MuxStream in internal/front/rsync/protocol/wire.go). */
module Mux {
  import opened Sequences
  import opened Streams

  const MPLEX_BASE: nat := 7
  const MSG_DATA: byte := 0
  const MSG_NO_SEND: byte := 102
  const MAX_PAYLOAD: nat := 0xFF_FFFF

  datatype Frame = Frame(tag: byte, payload: bytes)

  // ---------------------------------------------------------------------- writing

  /** Header (length in the low 24 bits, tag plus base above) and payload. */
  function FrameBytes(f: Frame): bytes {
    LE(|f.payload|, 3) + [(MPLEX_BASE + f.tag) % 256] + f.payload
  }

  function Wire(frames: seq<Frame>): bytes {
    if frames == [] then [] else FrameBytes(frames[0]) + Wire(frames[1..])
  }

  class MuxWriter {
    const sink: ByteSink
    ghost var sent: seq<Frame>

    ghost predicate Valid()
      reads this, sink
    {
      sink.out == Wire(sent) && forall i | 0 <= i < |sent| :: |sent[i].payload| <= MAX_PAYLOAD
    }

    constructor (sink: ByteSink)
      requires sink.out == []
      ensures Valid() && this.sink == sink && sent == []
    {
      this.sink := sink;
      sent := [];
    }

    method WriteFrame(tag: byte, data: bytes) returns (ok: bool)
      requires Valid()
      modifies this, sink
      ensures Valid()
      ensures ok <==> |data| <= MAX_PAYLOAD
      ensures sent == if ok then old(sent) + [Frame(tag, data)] else old(sent)
    {
      if |data| > MAX_PAYLOAD {
        return false;
      }
      var word := ((MPLEX_BASE + tag) % 256) * 0x100_0000 + |data|;
      HeaderBytes(tag, |data|);
      WireSnoc(sent, Frame(tag, data));
      Assoc(Wire(sent), LE(word, 4), data);
      hide Wire, LE;
      sink.Write(LE(word, 4));
      sink.Write(data);
      sent := sent + [Frame(tag, data)];
      ok := true;
    }
  }

  lemma HeaderBytes(tag: byte, len: nat)
    requires len <= MAX_PAYLOAD
    ensures LE(((MPLEX_BASE + tag) % 256) * 0x100_0000 + len, 4) == LE(len, 3) + [(MPLEX_BASE + tag) % 256]
  {
    var top := (MPLEX_BASE + tag) % 256;
    var s := LE(len, 3) + [top];
    ValueOfLE(len, 3);
    Powers();
    SmallMod(len, P(3));
    ValueSnoc(LE(len, 3), top);
    LEOfValue(s);
  }

  lemma {:induction false} WireAppend(a: seq<Frame>, b: seq<Frame>)
    ensures Wire(a + b) == Wire(a) + Wire(b)
    decreases |a|
  {
    if a == [] {
      assert a + b == b;
    } else {
      WireAppend(a[1..], b);
      assert (a + b)[1..] == a[1..] + b;
      assert (a + b)[0] == a[0];
    }
  }

  lemma WireSnoc(a: seq<Frame>, f: Frame)
    ensures Wire(a + [f]) == Wire(a) + FrameBytes(f)
  {
    WireAppend(a, [f]);
    assert [f][1..] == [];
    assert Wire([f]) == FrameBytes(f) + Wire([]);
  }

  // ---------------------------------------------------------------------- reading

  /** How the data stream ends: a clean end of file, a broken one, or the peer skipping a file. */
  datatype End = Clean | Broken | NoSend(ndx: int, wire: bytes)

  datatype Demuxed = Demuxed(data: bytes, end: End)

  datatype Next = Got(frame: Frame) | AtEof | Failed

  /**
   One frame off the front. A header with no payload byte after it counts as a clean end, as
   io.ReadFull reports it.
   */
  function NextOf(wire: bytes): Next {
    if wire == [] then AtEof
    else if |wire| < 4 then Failed
    else
      var len := Value(wire[..3]);
      if len > 0 && |wire| == 4 then AtEof
      else if |wire| - 4 < len then Failed
      else Got(Frame((wire[3] - MPLEX_BASE) % 256, wire[4..4 + len]))
  }

  function After(wire: bytes): bytes {
    if NextOf(wire).Got? then wire[4 + |NextOf(wire).frame.payload|..] else []
  }

  predicate Skips(f: Frame) {
    f.tag == MSG_NO_SEND && |f.payload| == 4
  }

  /** The data a wire carries up to its first end. */
  function Demux(wire: bytes): Demuxed
    decreases |wire|
  {
    match NextOf(wire)
    case AtEof => Demuxed([], Clean)
    case Failed => Demuxed([], Broken)
    case Got(f) =>
      if f.tag == MSG_DATA then
        var rest := Demux(After(wire));
        Demuxed(f.payload + rest.data, rest.end)
      else if Skips(f) then Demuxed([], NoSend(Wrap32(Value(f.payload)), After(wire)))
      else Demux(After(wire))
  }

  class MuxReader {
    var wire: bytes

    constructor (wire: bytes)
      ensures this.wire == wire
    {
      this.wire := wire;
    }

    method ReadFrame() returns (r: Next)
      modifies this
      ensures r == NextOf(old(wire)) && wire == After(old(wire))
    {
      if wire == [] {
        return AtEof;
      }
      if |wire| < 4 {
        wire := [];
        return Failed;
      }
      var length := Value(wire[..3]);
      var tag := (wire[3] - MPLEX_BASE) % 256;
      wire := wire[4..];
      if length > 0 && wire == [] {
        return AtEof;
      }
      if |wire| < length {
        wire := [];
        return Failed;
      }
      r := Got(Frame(tag, wire[..length]));
      assert old(wire)[4..][..length] == old(wire)[4..4 + length];
      assert old(wire)[4..][length..] == old(wire)[4 + length..];
      wire := wire[length..];
    }
  }

  datatype Status = Ok | Eof | ReadError | Skipped(ndx: int)

  class MuxStream {
    const mr: MuxReader
    var remain: bytes
    var eof: bool

    ghost predicate Valid()
      reads this, mr
    {
      eof ==> mr.wire == []
    }

    /** The data still to be delivered, and how it ends. */
    ghost function Remaining(): bytes
      reads this, mr
    {
      remain + Demux(mr.wire).data
    }

    ghost function Ending(): End
      reads this, mr
    {
      Demux(mr.wire).end
    }

    constructor (mr: MuxReader)
      ensures Valid() && this.mr == mr && Remaining() == Demux(mr.wire).data && Ending() == Demux(mr.wire).end
    {
      this.mr := mr;
      remain, eof := [], false;
    }

    /** Delivers the next data bytes in order, dropping message frames; reports how the data ended. */
    method Read(max: nat) returns (got: bytes, status: Status)
      requires Valid()
      modifies this, mr
      ensures Valid() && |got| <= max
      ensures status == Ok ==> old(Remaining()) == got + Remaining() && Ending() == old(Ending())
      ensures status == Ok && max > 0 ==> got != []
      ensures status != Ok ==> got == [] && old(Remaining()) == []
      ensures status == Eof <==> status != Ok && old(Ending()) == Clean
      ensures status == ReadError <==> status != Ok && old(Ending()) == Broken
      ensures status.Skipped? ==> old(Ending()) == NoSend(status.ndx, mr.wire)
    {
      while remain == [] && !eof
        invariant Valid() && Remaining() == old(Remaining()) && Ending() == old(Ending())
        decreases |mr.wire| + if remain == [] then 1 else 0, !eof
      {
        ghost var before := mr.wire;
        var next := mr.ReadFrame();
        if next.AtEof? {
          eof := true;
          return [], Eof;
        }
        if next.Failed? {
          return [], ReadError;
        }
        if next.frame.tag != MSG_DATA {
          if Skips(next.frame) {
            return [], Skipped(Wrap32(Value(next.frame.payload)));
          }
          continue;
        }
        remain := next.frame.payload;
      }
      if remain == [] {
        return [], Eof;
      }
      hide Demux;
      var n := Min(max, |remain|);
      got, status := remain[..n], Ok;
      CutFront(remain, n, Demux(mr.wire).data);
      remain := remain[n..];
    }

    /** io.ReadFull: however the frames cut the data, exactly the next `n` bytes, or an error when fewer remain. */
    method ReadFull(n: nat) returns (r: Option<bytes>)
      requires Valid()
      modifies this, mr
      ensures Valid()
      ensures r.Some? <==> n <= |old(Remaining())|
      ensures r.Some? ==>
        r.value == old(Remaining())[..n] && Remaining() == old(Remaining())[n..] && Ending() == old(Ending())
    {
      var got := [];
      ghost var all := Remaining();
      assert [] + all == all;
      hide MuxStream.Valid, MuxStream.Remaining, MuxStream.Ending;
      while |got| < n
        invariant |got| <= n && Valid()
        invariant all == got + Remaining() && Ending() == old(Ending())
        decreases n - |got|
      {
        var more, status := Read(n - |got|);
        if status != Ok {
          return None;
        }
        Assoc(got, more, Remaining());
        got := got + more;
      }
      SplitAt(got, Remaining());
      r := Some(got);
    }
  }

  lemma SplitAt(got: bytes, rest: bytes)
    ensures (got + rest)[..|got|] == got && (got + rest)[|got|..] == rest
  {
  }

  lemma CutFront(remain: bytes, n: nat, rest: bytes)
    requires n <= |remain|
    ensures remain + rest == remain[..n] + (remain[n..] + rest)
  {
  }

  // -------------------------------------------------------------- what gets through

  /** Frames that do not stop the stream. */
  ghost predicate Carried(f: Frame) {
    |f.payload| <= MAX_PAYLOAD && !Skips(f)
  }

  function DataOf(frames: seq<Frame>): bytes {
    if frames == [] then []
    else (if frames[0].tag == MSG_DATA then frames[0].payload else []) + DataOf(frames[1..])
  }

  lemma FrameParses(f: Frame, tail: bytes)
    requires |f.payload| <= MAX_PAYLOAD
    ensures NextOf(FrameBytes(f) + tail) == Got(f)
    ensures After(FrameBytes(f) + tail) == tail
  {
    var wire := FrameBytes(f) + tail;
    var len := |f.payload|;
    assert wire[..3] == LE(len, 3);
    ValueOfLE(len, 3);
    Powers();
    SmallMod(len, P(3));
    assert wire[3] == (MPLEX_BASE + f.tag) % 256;
    TagSurvives(f.tag);
    assert wire[4..4 + len] == f.payload && wire[4 + len..] == tail;
  }

  lemma TagSurvives(tag: byte)
    ensures ((MPLEX_BASE + tag) % 256 - MPLEX_BASE) % 256 == tag
  {
  }

  lemma OneFrame(f: Frame, rest: bytes)
    requires Carried(f)
    ensures Demux(FrameBytes(f) + rest) ==
      if f.tag == MSG_DATA then Demuxed(f.payload + Demux(rest).data, Demux(rest).end) else Demux(rest)
  {
    FrameParses(f, rest);
    hide NextOf, After, FrameBytes;
  }

  /**
   Any sequence of frames, data and messages interleaved in any way, delivers exactly the payloads
   of its data frames in order, followed by whatever comes next on the wire.
   */
  lemma {:induction false} FramesDeliver(frames: seq<Frame>, tail: bytes)
    requires forall i | 0 <= i < |frames| :: Carried(frames[i])
    ensures Demux(Wire(frames) + tail) == Demuxed(DataOf(frames) + Demux(tail).data, Demux(tail).end)
    decreases |frames|
  {
    var t := Demux(tail);
    if frames == [] {
      assert Wire(frames) == [] && DataOf(frames) == [];
      hide Demux;
      assert [] + tail == tail && [] + t.data == t.data;
    } else {
      var f, rest := frames[0], Wire(frames[1..]) + tail;
      var mine, more := if f.tag == MSG_DATA then f.payload else [], DataOf(frames[1..]);
      FramesDeliver(frames[1..], tail);
      OneFrame(f, rest);
      WireCons(frames, tail);
      assert DataOf(frames) == mine + more;
      hide Demux, FrameBytes, Wire, DataOf;
      Assoc(mine, more, t.data);
      assert [] + (more + t.data) == more + t.data;
    }
  }

  lemma WireCons(frames: seq<Frame>, tail: bytes)
    requires frames != []
    ensures Wire(frames) + tail == FrameBytes(frames[0]) + (Wire(frames[1..]) + tail)
  {
    hide FrameBytes;
    Assoc(FrameBytes(frames[0]), Wire(frames[1..]), tail);
  }

  lemma {:induction false} DataOfAppend(a: seq<Frame>, b: seq<Frame>)
    ensures DataOf(a + b) == DataOf(a) + DataOf(b)
    decreases |a|
  {
    if a == [] {
      assert a + b == b;
    } else {
      DataOfAppend(a[1..], b);
      assert (a + b)[1..] == a[1..] + b;
      assert (a + b)[0] == a[0];
    }
  }
}

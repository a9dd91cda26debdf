/** Length-prefixed messages over a byte stream. Modelled on
    src/daemon/protocol.rs. */
module Framing {
  import opened Prelude

  type Byte = b: nat | b < 256

  const MAX_MESSAGE_SIZE := 0x100_0000
  const WORD := 0x1_0000_0000

  // ── The length prefix ──────────────────────────────────────────────

  function ToBigEndian(n: nat): (bytes: seq<Byte>)
    requires n < WORD
    ensures |bytes| == 4
  {
    [n / 0x100_0000, n / 0x1_0000 % 0x100, n / 0x100 % 0x100, n % 0x100]
  }

  function FromBigEndian(bytes: seq<Byte>): (n: nat)
    requires |bytes| == 4
    ensures n < WORD
  {
    var a: nat, b: nat, c: nat, d: nat := bytes[0], bytes[1], bytes[2], bytes[3];
    0x100_0000 * a + 0x1_0000 * b + 0x100 * c + d
  }

  lemma DecodeEncode(n: nat)
    requires n < WORD
    ensures FromBigEndian(ToBigEndian(n)) == n
  {
    var a, b, c := n / 0x100, n / 0x1_0000, n / 0x100_0000;
    assert n == 0x100 * a + n % 0x100;
    assert a == 0x100 * b + a % 0x100;
    assert b == 0x100 * c + b % 0x100;
  }

  lemma EncodeDecode(bytes: seq<Byte>)
    requires |bytes| == 4
    ensures ToBigEndian(FromBigEndian(bytes)) == bytes
  {
    var a: nat, b: nat, c: nat, d: nat := bytes[0], bytes[1], bytes[2], bytes[3];
    var n := FromBigEndian(bytes);
    assert n % 0x100 == d && n / 0x100 == 0x1_0000 * a + 0x100 * b + c;
    assert n / 0x100 % 0x100 == c && n / 0x1_0000 == 0x100 * a + b;
    assert n / 0x1_0000 % 0x100 == b && n / 0x100_0000 == a;
  }

  /** The first byte is the most significant: where two prefixes first differ, the
      smaller byte makes the smaller number. */
  lemma FirstByteWeighsMost(a: seq<Byte>, b: seq<Byte>, i: nat)
    requires |a| == |b| == 4 && i < 4
    requires a[..i] == b[..i] && a[i] < b[i]
    ensures FromBigEndian(a) < FromBigEndian(b)
  {
    forall j | 0 <= j < i ensures a[j] == b[j] {
      assert a[..i][j] == b[..i][j];
    }
  }

  // ── Frames ─────────────────────────────────────────────────────────

  predicate Fits(payload: seq<Byte>) {
    |payload| <= MAX_MESSAGE_SIZE
  }

  function Frame(payload: seq<Byte>): (frame: seq<Byte>)
    requires Fits(payload)
    ensures |frame| == |payload| + 4
  {
    ToBigEndian(|payload|) + payload
  }

  /** A frame starts with the number of 16 MiB in the length of its payload, then
      that of the 64 KiB left, of the 256 bytes left, and of the bytes left. */
  lemma FrameStartsWithLength(payload: seq<Byte>)
    requires Fits(payload)
    ensures var f := Frame(payload);
      0x100_0000 * (f[0] as int) + 0x1_0000 * (f[1] as int) + 0x100 * (f[2] as int) + f[3] as int == |payload| && f[4..] == payload
    ensures |payload| < 0x100 ==> Frame(payload)[3] == |payload|
  {
    DecodeEncode(|payload|);
  }

  ghost predicate AllFit(payloads: seq<seq<Byte>>) {
    forall p :: p in payloads ==> Fits(p)
  }

  function Frames(payloads: seq<seq<Byte>>): seq<Byte>
    requires AllFit(payloads)
  {
    if payloads == [] then [] else Frame(payloads[0]) + Frames(payloads[1..])
  }

  /** What one read gives, and what it leaves unread. At the end of the stream the
      bytes of an incomplete message are used up; an oversized one is refused
      before its payload is touched. */
  datatype Read = Message(payload: seq<Byte>) | Truncated | TooLarge(size: nat)

  function ReadOne(stream: seq<Byte>): (result: (Read, seq<Byte>))
    ensures result.0.Message? ==> |result.1| == |stream| - 4 - |result.0.payload|
  {
    if |stream| < 4 then (Truncated, [])
    else
      var size, rest := FromBigEndian(stream[..4]), stream[4..];
      if size > MAX_MESSAGE_SIZE then (TooLarge(size), rest)
      else if |rest| < size then (Truncated, [])
      else (Message(rest[..size]), rest[size..])
  }

  /** Reads until a read fails: the messages, how it ended, and what was still
      unread when the failing read began. */
  function ReadAll(stream: seq<Byte>): (seq<seq<Byte>>, Read, seq<Byte>)
    decreases |stream|
  {
    var (read, rest) := ReadOne(stream);
    if !read.Message? then ([], read, stream)
    else
      var (more, end, left) := ReadAll(rest);
      ([read.payload] + more, end, left)
  }

  // ── Writing and reading ────────────────────────────────────────────

  class Writer {
    var sent: seq<Byte>

    constructor ()
      ensures sent == []
    {
      sent := [];
    }

    /** An oversized message is refused and nothing of it is sent. */
    method WriteMessage(payload: seq<Byte>) returns (ok: bool)
      modifies this
      ensures ok <==> Fits(payload)
      ensures ok <==> |payload| <= 16_777_216
      ensures sent == if ok then old(sent) + Frame(payload) else old(sent)
    {
      if |payload| > MAX_MESSAGE_SIZE {
        return false;
      }
      sent := sent + ToBigEndian(|payload|);
      sent := sent + payload;
      ok := true;
    }
  }

  class Reader {
    var unread: seq<Byte>

    constructor (stream: seq<Byte>)
      ensures unread == stream
    {
      unread := stream;
    }

    method ReadExact(n: nat) returns (bytes: Option<seq<Byte>>)
      modifies this
      ensures if |old(unread)| < n then bytes == None && unread == []
              else bytes == Some(old(unread)[..n]) && unread == old(unread)[n..]
    {
      if |unread| < n {
        unread := [];
        return None;
      }
      bytes := Some(unread[..n]);
      unread := unread[n..];
    }

    method ReadMessage() returns (read: Read)
      modifies this
      ensures (read, unread) == ReadOne(old(unread))
    {
      var prefix := ReadExact(4);
      if prefix.None? {
        return Truncated;
      }
      var size := FromBigEndian(prefix.value);
      if size > MAX_MESSAGE_SIZE {
        return TooLarge(size);
      }
      var payload := ReadExact(size);
      read := if payload.Some? then Message(payload.value) else Truncated;
    }
  }

  // ── Round trip ─────────────────────────────────────────────────────

  lemma ReadsFrame(payload: seq<Byte>, rest: seq<Byte>)
    requires Fits(payload)
    ensures ReadOne(Frame(payload) + rest) == (Message(payload), rest)
  {
    var stream := Frame(payload) + rest;
    DecodeEncode(|payload|);
    assert stream[..4] == ToBigEndian(|payload|);
    assert stream[4..] == payload + rest;
  }

  lemma ReadsFirst(payload: seq<Byte>, rest: seq<Byte>)
    requires Fits(payload)
    ensures ReadAll(Frame(payload) + rest) == ([payload] + ReadAll(rest).0, ReadAll(rest).1, ReadAll(rest).2)
  {
    ReadsFrame(payload, rest);
  }

  /** Reading what was written gives back every payload, in order, uses every byte,
      and then finds the stream at its end. */
  lemma {:induction false} RoundTrip(payloads: seq<seq<Byte>>)
    requires AllFit(payloads)
    ensures ReadAll(Frames(payloads)) == (payloads, Truncated, [])
  {
    if payloads != [] {
      ReadsFirst(payloads[0], Frames(payloads[1..]));
      RoundTrip(payloads[1..]);
      assert [payloads[0]] + payloads[1..] == payloads;
    }
  }

  lemma FrameOfMessage(stream: seq<Byte>)
    requires ReadOne(stream).0.Message?
    ensures var (read, rest) := ReadOne(stream); Fits(read.payload) && stream == Frame(read.payload) + rest
  {
    EncodeDecode(stream[..4]);
    assert stream == stream[..4] + stream[4..];
  }

  lemma FramesPrepend(first: seq<Byte>, more: seq<seq<Byte>>, left: seq<Byte>)
    requires Fits(first) && AllFit(more)
    ensures AllFit([first] + more) && Frames([first] + more) + left == Frame(first) + (Frames(more) + left)
  {
    assert ([first] + more)[1..] == more;
  }

  /** Whatever the stream, no byte is lost or invented: the messages read, framed
      again, and what was unread at the failing read make up the stream. */
  lemma {:induction false} ReadingLosesNothing(stream: seq<Byte>)
    ensures var (read, end, left) := ReadAll(stream);
      AllFit(read) && Frames(read) + left == stream && ReadOne(left).0 == end && !end.Message?
    decreases |stream|
  {
    var (first, rest) := ReadOne(stream);
    if first.Message? {
      FrameOfMessage(stream);
      ReadingLosesNothing(rest);
      FramesPrepend(first.payload, ReadAll(rest).0, ReadAll(rest).2);
    }
  }

  /** Two lists of messages never share a byte stream. */
  lemma FramesInjective(a: seq<seq<Byte>>, b: seq<seq<Byte>>)
    requires AllFit(a) && AllFit(b) && Frames(a) == Frames(b)
    ensures a == b
  {
    RoundTrip(a);
    RoundTrip(b);
  }

  lemma CutFrame(payload: seq<Byte>, cut: nat)
    requires Fits(payload) && cut < |Frame(payload)|
    ensures ReadOne(Frame(payload)[..cut]).0 == Truncated
  {
    var stream := Frame(payload)[..cut];
    if cut >= 4 {
      DecodeEncode(|payload|);
      assert stream[..4] == ToBigEndian(|payload|);
    }
  }

  lemma FramesTake(payloads: seq<seq<Byte>>, k: nat)
    requires AllFit(payloads) && 0 < k <= |payloads|
    ensures |Frames(payloads[..k])| == |Frame(payloads[0])| + |Frames(payloads[1..][..k - 1])|
  {
    assert payloads[..k][1..] == payloads[1..][..k - 1];
    assert payloads[..k][0] == payloads[0];
  }

  lemma CutPastFirst(payloads: seq<seq<Byte>>, cut: nat)
    requires AllFit(payloads) && payloads != [] && |Frame(payloads[0])| <= cut <= |Frames(payloads)|
    ensures Frames(payloads)[..cut] == Frame(payloads[0]) + Frames(payloads[1..])[..cut - |Frame(payloads[0])|]
  {
  }

  /** Exactly the first `k` messages lie wholly before the cut. */
  ghost predicate CutAfter(payloads: seq<seq<Byte>>, cut: nat, k: nat)
    requires AllFit(payloads)
  {
    k <= |payloads| && |Frames(payloads[..k])| <= cut && (k < |payloads| ==> cut < |Frames(payloads[..k + 1])|)
  }

  lemma CutAfterOneMore(payloads: seq<seq<Byte>>, cut: nat, k: nat)
    requires AllFit(payloads) && payloads != [] && |Frame(payloads[0])| <= cut
    requires CutAfter(payloads[1..], cut - |Frame(payloads[0])|, k)
    ensures CutAfter(payloads, cut, k + 1)
  {
    FramesTake(payloads, k + 1);
    if k + 1 < |payloads| {
      FramesTake(payloads, k + 2);
    }
  }

  lemma CutInFirst(payloads: seq<seq<Byte>>, cut: nat)
    requires AllFit(payloads) && payloads != [] && cut < |Frame(payloads[0])|
    ensures CutAfter(payloads, cut, 0) && cut <= |Frames(payloads)|
    ensures var (read, end, _) := ReadAll(Frames(payloads)[..cut]); read == [] && end == Truncated
  {
    assert Frames(payloads)[..cut] == Frame(payloads[0])[..cut];
    CutFrame(payloads[0], cut);
    FramesTake(payloads, 1);
  }

  lemma ReadsPastFirst(payloads: seq<seq<Byte>>, cut: nat)
    requires AllFit(payloads) && payloads != [] && |Frame(payloads[0])| <= cut <= |Frames(payloads)|
    ensures var (read, end, left) := ReadAll(Frames(payloads[1..])[..cut - |Frame(payloads[0])|]);
      ReadAll(Frames(payloads)[..cut]) == ([payloads[0]] + read, end, left)
  {
    CutPastFirst(payloads, cut);
    ReadsFirst(payloads[0], Frames(payloads[1..])[..cut - |Frame(payloads[0])|]);
  }

  /** Cut anywhere, the stream gives exactly the messages that lie wholly before
      the cut, and then ends as truncated; it never yields a wrong message or a
      false size. */
  lemma {:induction false} TruncationGivesPrefix(payloads: seq<seq<Byte>>, cut: nat) returns (k: nat)
    requires AllFit(payloads) && cut <= |Frames(payloads)|
    ensures CutAfter(payloads, cut, k)
    ensures var (read, end, _) := ReadAll(Frames(payloads)[..cut]); read == payloads[..k] && end == Truncated
  {
    if payloads == [] {
      k := 0;
    } else if cut < |Frame(payloads[0])| {
      k := 0;
      CutInFirst(payloads, cut);
    } else {
      var rest, n := payloads[1..], cut - |Frame(payloads[0])|;
      var k' := TruncationGivesPrefix(rest, n);
      k := k' + 1;
      CutAfterOneMore(payloads, cut, k');
      ReadsPastFirst(payloads, cut);
      assert payloads[..k] == [payloads[0]] + rest[..k'];
    }
  }

  /** A message over the limit is refused by the writer; a prefix over the limit is
      refused by the reader with its size, whatever follows. */
  lemma OversizedRefused(size: nat, rest: seq<Byte>)
    requires MAX_MESSAGE_SIZE < size < WORD
    ensures ReadOne(ToBigEndian(size) + rest) == (TooLarge(size), rest)
  {
    DecodeEncode(size);
    assert (ToBigEndian(size) + rest)[..4] == ToBigEndian(size);
    assert (ToBigEndian(size) + rest)[4..] == rest;
  }
}

/** The unicast wire format: eight bytes of sequence number, then the message. */
module Frames {
  import opened Text

  type Byte = b: int | 0 <= b < 0x100
  type Bytes = seq<Byte>
  type SeqNum = n: int | 0 <= n < TWO_64

  const MAX_UDP_PAYLOAD: nat := 65507
  const HEADER: nat := 8
  const NEWLINE: Byte := 10
  const ACK: Bytes := [97, 99, 107]

  // ---------- the sequence number, in the byte order of a little-endian host ----------

  function Pow256(k: nat): (p: nat)
    ensures p > 0
  {
    if k == 0 then 1 else 256 * Pow256(k - 1)
  }

  function Encode(n: nat, k: nat): (bs: Bytes)
    ensures |bs| == k
  {
    if k == 0 then [] else [n % 256] + Encode(n / 256, k - 1)
  }

  function Decode(bs: Bytes): nat {
    if bs == [] then 0 else bs[0] + 256 * Decode(bs[1..])
  }

  lemma {:induction false} DecodeEncode(n: nat, k: nat)
    requires n < Pow256(k)
    ensures Decode(Encode(n, k)) == n
  {
    if k > 0 {
      DecodeEncode(n / 256, k - 1);
      assert Encode(n, k)[1..] == Encode(n / 256, k - 1);
    }
  }

  lemma {:induction false} EncodeDecode(bs: Bytes)
    ensures Encode(Decode(bs), |bs|) == bs
  {
    if bs != [] {
      EncodeDecode(bs[1..]);
      assert bs == [bs[0]] + bs[1..];
    }
  }

  lemma {:induction false} TopByte(n: nat, k: nat)
    requires n < Pow256(k + 1)
    ensures Encode(n, k + 1)[k] == n / Pow256(k)
    decreases k
  {
    if k > 0 {
      TopByte(n / 256, k - 1);
      assert Encode(n, k + 1)[k] == Encode(n / 256, k)[k - 1];
      DivideTwice(n, Pow256(k - 1));
    } else {
      assert Pow256(1) == 256 * Pow256(0) == 256;
    }
  }

  lemma DivideTwice(n: nat, p: nat)
    requires p > 0
    ensures n / 256 / p == n / (256 * p)
  {
    var q := n / (256 * p);
    var r := n % (256 * p);
    assert n == q * (256 * p) + r;
    var s, t := r / 256, r % 256;
    assert s >= p ==> 256 * s >= 256 * p;
    assert n == 256 * (q * p + s) + t;
    assert n / 256 == q * p + s;
    QuotientIs(n / 256, p, q, s);
  }

  lemma QuotientIs(n: nat, p: nat, q: nat, s: nat)
    requires p > 0 && n == q * p + s && s < p
    ensures n / p == q
  {
    var d := n / p - q;
    assert n == (n / p) * p + n % p;
    assert d * p == s - n % p;
    assert d > 0 ==> d * p >= p;
    assert d < 0 ==> d * p <= 0 - p;
  }

  lemma {:induction false} ByteAt(n: nat, k: nat, i: nat)
    requires i < k
    ensures Encode(n, k)[i] == n / Pow256(i) % 256
    decreases i
  {
    if i > 0 {
      ByteAt(n / 256, k - 1, i - 1);
      DivideTwice(n, Pow256(i - 1));
    }
  }

  function SeqBytes(n: SeqNum): (bs: Bytes)
    ensures |bs| == HEADER && Decode(bs) == n
  {
    assert Pow256(8) == TWO_64 by {
      assert Pow256(4) == 0x1_0000_0000;
    }
    DecodeEncode(n, 8);
    Encode(n, 8)
  }

  // ---------- trimming ----------

  /** The receiver's loop over trailing newlines. */
  function Trim(bs: Bytes): (r: Bytes)
    ensures r <= bs
    ensures r != [] ==> r[|r| - 1] != NEWLINE
    ensures forall i :: |r| <= i < |bs| ==> bs[i] == NEWLINE
  {
    if bs != [] && bs[|bs| - 1] == NEWLINE then Trim(bs[..|bs| - 1]) else bs
  }

  lemma {:induction false} TrimIs(bs: Bytes, r: Bytes)
    requires r <= bs && (r != [] ==> r[|r| - 1] != NEWLINE)
    requires forall i :: |r| <= i < |bs| ==> bs[i] == NEWLINE
    ensures Trim(bs) == r
  {
    if |r| < |bs| {
      assert bs[|bs| - 1] == NEWLINE;
      TrimIs(bs[..|bs| - 1], r);
    }
  }

  // ---------- frames ----------

  /** What the sender puts on the wire of a message. */
  function Shorten(message: Bytes): (r: Bytes)
    ensures r <= message && |r| <= MAX_UDP_PAYLOAD - HEADER
  {
    if |message| <= MAX_UDP_PAYLOAD - HEADER then message else message[..MAX_UDP_PAYLOAD - HEADER]
  }

  function Frame(n: SeqNum, message: Bytes): (bs: Bytes)
    ensures HEADER <= |bs| <= MAX_UDP_PAYLOAD
  {
    SeqBytes(n) + Shorten(message)
  }

  function AckFrame(n: SeqNum): Bytes {
    SeqBytes(n) + ACK
  }

  /** What is left of a message at the other end. */
  function Canonical(message: Bytes): Bytes {
    Trim(Shorten(message))
  }

  /** An ordinary message crosses whole but for its trailing newlines, a longer one as its first 65499 bytes. */
  lemma CanonicalIs(message: Bytes)
    ensures |message| <= 65499 ==> Canonical(message) == Trim(message)
    ensures |message| > 65499 ==> Canonical(message) == Trim(message[..65499])
  {
    assert MAX_UDP_PAYLOAD - HEADER == 65499;
  }

  /** The bytes of a frame: the number's, least significant first, then those of the message as far as a datagram of
      65507 bytes has room for them. */
  lemma FrameIs(n: SeqNum, message: Bytes)
    ensures |Frame(n, message)| == if |message| <= 65499 then 8 + |message| else 65507
    ensures forall i :: 0 <= i < 8 ==> Frame(n, message)[i] == n / Pow256(i) % 256
    ensures forall i :: 8 <= i < |Frame(n, message)| ==> Frame(n, message)[i] == message[i - 8]
  {
    forall i | 0 <= i < 8 ensures Frame(n, message)[i] == n / Pow256(i) % 256 {
      ByteAt(n, 8, i);
    }
  }

  datatype Packet = Packet(seqNum: SeqNum, message: Bytes)

  lemma {:induction false} DecodeBound(bs: Bytes)
    ensures Decode(bs) < Pow256(|bs|)
  {
    if bs != [] {
      DecodeBound(bs[1..]);
    }
  }

  /** The number read from the first bytes of the receive buffer. */
  function ReadSeqNum(bs: Bytes): SeqNum
    requires |bs| == HEADER
  {
    DecodeBound(bs);
    assert Pow256(8) == TWO_64 by {
      assert Pow256(4) == 0x1_0000_0000;
    }
    Decode(bs)
  }

  /** `BackgroundReceive` up to the point where it looks at the message; None is "Message too small". */
  function ParseFrame(payload: Bytes): Option<Packet> {
    var t := Trim(payload);
    if |t| < HEADER then None else Some(Packet(ReadSeqNum(t[..HEADER]), t[HEADER..]))
  }

  /** A frame parses to its number and the message, cut to 65499 bytes and trimmed, except that when nothing is left
      of the message and the top byte of the number is a newline, the frame is rejected as too small. */
  lemma FrameRoundTrip(n: SeqNum, message: Bytes)
    ensures var rest := Trim(if |message| <= 65499 then message else message[..65499]);
            ParseFrame(Frame(n, message)) == if rest == [] && n / Pow256(7) == 10 then None else Some(Packet(n, rest))
  {
    assert Pow256(8) == TWO_64 by {
      assert Pow256(4) == 0x1_0000_0000;
    }
    TopByte(n, 7);
    CanonicalIs(message);
    FrameParses(n, message);
  }

  lemma FrameParses(n: SeqNum, message: Bytes)
    ensures ParseFrame(Frame(n, message)) ==
            if Canonical(message) == [] && SeqBytes(n)[HEADER - 1] == NEWLINE then None
            else Some(Packet(n, Canonical(message)))
  {
    var f, m := Frame(n, message), Canonical(message);
    if m == [] && SeqBytes(n)[HEADER - 1] == NEWLINE {
      assert f[HEADER - 1] == NEWLINE;
      forall i | HEADER - 1 <= i < |f| ensures f[i] == NEWLINE {
        if i >= HEADER {
          assert f[i] == Shorten(message)[i - HEADER];
        }
      }
      assert |Trim(f)| < HEADER;
    } else {
      var t := SeqBytes(n) + m;
      forall i | |t| <= i < |f| ensures f[i] == NEWLINE {
        assert f[i] == Shorten(message)[i - HEADER];
      }
      assert t <= f;
      TrimIs(f, t);
      assert t[..HEADER] == SeqBytes(n) && t[HEADER..] == m;
    }
  }

  /** The frame round trip holds for every message exactly for the numbers outside one eighth-byte band. */
  lemma FrameRoundTripIff(n: SeqNum)
    ensures (forall message :: ParseFrame(Frame(n, message)) == Some(Packet(n, Canonical(message))))
       <==> !(10 * Pow256(7) <= n < 11 * Pow256(7))
  {
    assert Pow256(8) == TWO_64 by {
      assert Pow256(4) == 0x1_0000_0000;
    }
    TopByte(n, 7);
    assert SeqBytes(n)[7] == n / Pow256(7);
    BandIff(n, Pow256(7));
    forall message ensures ParseFrame(Frame(n, message)) == Some(Packet(n, Canonical(message))) <==>
        !(Canonical(message) == [] && SeqBytes(n)[7] == NEWLINE)
    {
      FrameParses(n, message);
    }
    assert Canonical([]) == [];
  }

  lemma BandIff(n: nat, p: nat)
    requires p > 0
    ensures n / p == 10 <==> 10 * p <= n < 11 * p
  {
    var q := n / p;
    assert n == q * p + n % p;
    if q < 10 {
      assert q * p <= 9 * p;
    } else if q > 10 {
      assert q * p >= 11 * p;
    }
  }

  /** An acknowledgement always parses to its number and "ack". */
  lemma AckRoundTrip(n: SeqNum)
    ensures ParseFrame(AckFrame(n)) == Some(Packet(n, ACK))
  {
    var f := AckFrame(n);
    TrimIs(f, f);
    assert f[..HEADER] == SeqBytes(n) && f[HEADER..] == ACK;
  }

  /** A message whose frame reads as an acknowledgement. */
  predicate LooksLikeAck(message: Bytes) {
    Canonical(message) == ACK
  }
}

/** The byte strings that get hashed (internal/crypt/envelope.go, internal/consensus/log.go)
    determine the fields they encode. */
module Encoding {
  type Byte = b: nat | b < 256
  type Bytes = seq<Byte>

  const U32 := 0x1_0000_0000
  const U64 := 0x1_0000_0000_0000_0000

  // The last n bytes of v, most significant first.
  function BigEndian(v: nat, n: nat): (b: Bytes)
    ensures |b| == n
  {
    if n == 0 then [] else BigEndian(v / 256, n - 1) + [v % 256]
  }

  function Power256(n: nat): nat {
    if n == 0 then 1 else 256 * Power256(n - 1)
  }

  lemma {:induction false} BigEndianInjective(v: nat, w: nat, n: nat)
    requires v < Power256(n) && w < Power256(n)
    requires BigEndian(v, n) == BigEndian(w, n)
    ensures v == w
  {
    if n > 0 {
      var a, b := BigEndian(v / 256, n - 1), BigEndian(w / 256, n - 1);
      assert (a + [v % 256])[..n - 1] == a && (b + [w % 256])[..n - 1] == b;
      assert (a + [v % 256])[n - 1] == v % 256 && (b + [w % 256])[n - 1] == w % 256;
      BigEndianInjective(v / 256, w / 256, n - 1);
    }
  }

  function Word(v: nat): Bytes {
    BigEndian(v, 8)
  }

  // A four-byte length, truncated as the source's conversion does, then the bytes.
  function LenPrefixed(b: Bytes): Bytes {
    BigEndian(|b| % U32, 4) + b
  }

  lemma PowersOfTwo()
    ensures Power256(4) == U32 && Power256(8) == U64
  {
    assert Power256(2) == 256 * 256;
    assert Power256(4) == 256 * (256 * Power256(2));
    assert Power256(6) == 256 * (256 * Power256(4));
    assert Power256(8) == 256 * (256 * Power256(6));
  }

  // Two encodings whose first parts have equal length agree part by part.
  lemma SameLengthSplits(a: Bytes, b: Bytes, x: Bytes, y: Bytes)
    requires |a| == |b| && a + x == b + y
    ensures a == b && x == y
  {
    assert (a + x)[..|a|] == a && (b + y)[..|b|] == b;
    assert (a + x)[|a|..] == x && (b + y)[|b|..] == y;
  }

  lemma WordSplits(v: nat, w: nat, x: Bytes, y: Bytes)
    requires v < U64 && w < U64 && Word(v) + x == Word(w) + y
    ensures v == w && x == y
  {
    SameLengthSplits(Word(v), Word(w), x, y);
    PowersOfTwo();
    BigEndianInjective(v, w, 8);
  }

  lemma LenPrefixedSplits(a: Bytes, b: Bytes, x: Bytes, y: Bytes)
    requires |a| < U32 && |b| < U32 && LenPrefixed(a) + x == LenPrefixed(b) + y
    ensures a == b && x == y
  {
    hide BigEndian, Power256;

    var p, q := BigEndian(|a|, 4), BigEndian(|b|, 4);
    assert p + (a + x) == LenPrefixed(a) + x && q + (b + y) == LenPrefixed(b) + y;
    SameLengthSplits(p, q, a + x, b + y);
    PowersOfTwo();
    BigEndianInjective(|a|, |b|, 4);
    SameLengthSplits(a, b, x, y);
  }

  // ---------- The two hashed domains ----------

  // "crossfault/v1/envelope" and "crossfault/v1/entry", each closed by a zero byte.
  const ENVELOPE_DOMAIN: Bytes :=
    [99, 114, 111, 115, 115, 102, 97, 117, 108, 116, 47, 118, 49, 47,
     101, 110, 118, 101, 108, 111, 112, 101, 0]

  const ENTRY_DOMAIN: Bytes :=
    [99, 114, 111, 115, 115, 102, 97, 117, 108, 116, 47, 118, 49, 47,
     101, 110, 116, 114, 121, 0]

  datatype Message = Message(from: Bytes, to: Bytes, kind: Byte, term: nat, seqNo: nat,
                             prevHash: Bytes, payload: Bytes)
  {
    // Field widths of the source: 64-bit counters, 32-byte hashes, and byte
    // strings whose length fits the four-byte prefix.
    predicate Fits() {
      |from| < U32 && |to| < U32 && term < U64 && seqNo < U64 && |prevHash| == 32 && |payload| < U32
    }
  }

  function MessageTail(m: Message): Bytes {
    [m.kind] + (Word(m.term) + (Word(m.seqNo) + (m.prevHash + LenPrefixed(m.payload))))
  }

  function MessageBytes(m: Message): Bytes {
    ENVELOPE_DOMAIN + (LenPrefixed(m.from) + (LenPrefixed(m.to) + MessageTail(m)))
  }

  datatype LogRecord = LogRecord(term: nat, index: nat, cmd: Bytes, prevHash: Bytes) {
    predicate Fits() {
      term < U64 && index < U64 && |cmd| < U32 && |prevHash| == 32
    }
  }

  function RecordBytes(r: LogRecord): Bytes {
    ENTRY_DOMAIN + (Word(r.term) + (Word(r.index) + (LenPrefixed(r.cmd) + r.prevHash)))
  }

  lemma TailDetermines(m: Message, n: Message)
    requires m.Fits() && n.Fits() && MessageTail(m) == MessageTail(n)
    ensures m.(from := n.from, to := n.to) == n
  {
    var pm, pn := LenPrefixed(m.payload), LenPrefixed(n.payload);
    var hm, hn := m.prevHash + pm, n.prevHash + pn;
    var sm, sn := Word(m.seqNo) + hm, Word(n.seqNo) + hn;
    SameLengthSplits([m.kind], [n.kind], Word(m.term) + sm, Word(n.term) + sn);
    assert [m.kind][0] == [n.kind][0];
    WordSplits(m.term, n.term, sm, sn);
    WordSplits(m.seqNo, n.seqNo, hm, hn);
    SameLengthSplits(m.prevHash, n.prevHash, pm, pn);
    assert pm + [] == pm && pn + [] == pn;
    LenPrefixedSplits(m.payload, n.payload, [], []);
  }

  // Equal digests mean equal messages: nothing can move between fields.
  lemma MessageBytesDetermine(m: Message, n: Message)
    requires m.Fits() && n.Fits() && MessageBytes(m) == MessageBytes(n)
    ensures m == n
  {
    var tm, tn := MessageTail(m), MessageTail(n);
    var am, an := LenPrefixed(m.to) + tm, LenPrefixed(n.to) + tn;
    SameLengthSplits(ENVELOPE_DOMAIN, ENVELOPE_DOMAIN, LenPrefixed(m.from) + am, LenPrefixed(n.from) + an);
    LenPrefixedSplits(m.from, n.from, am, an);
    LenPrefixedSplits(m.to, n.to, tm, tn);
    TailDetermines(m, n);
  }

  lemma RecordBytesDetermine(r: LogRecord, s: LogRecord)
    requires r.Fits() && s.Fits() && RecordBytes(r) == RecordBytes(s)
    ensures r == s
  {
    var cr, cs := LenPrefixed(r.cmd) + r.prevHash, LenPrefixed(s.cmd) + s.prevHash;
    var xr, xs := Word(r.index) + cr, Word(s.index) + cs;
    SameLengthSplits(ENTRY_DOMAIN, ENTRY_DOMAIN, Word(r.term) + xr, Word(s.term) + xs);
    WordSplits(r.term, s.term, xr, xs);
    WordSplits(r.index, s.index, cr, cs);
    LenPrefixedSplits(r.cmd, s.cmd, r.prevHash, s.prevHash);
  }

  // A hash of a message is never a hash of a log entry.
  lemma DomainsNeverCollide(m: Message, r: LogRecord)
    ensures MessageBytes(m) != RecordBytes(r)
  {
    assert MessageBytes(m)[16] == ENVELOPE_DOMAIN[16] == 118;
    assert RecordBytes(r)[16] == ENTRY_DOMAIN[16] == 116;
  }

  // ---------- The hash input as it is written, field by field ----------

  method WriteLenPrefixed(h: Bytes, b: Bytes) returns (out: Bytes)
    ensures out == h + LenPrefixed(b)
  {
    out := h + BigEndian(|b| % U32, 4);
    out := out + b;
  }

  method DigestInput(m: Message) returns (h: Bytes)
    ensures h == MessageBytes(m)
  {
    hide ENVELOPE_DOMAIN, BigEndian, Word, LenPrefixed;
    h := ENVELOPE_DOMAIN;
    h := WriteLenPrefixed(h, m.from);
    h := WriteLenPrefixed(h, m.to);
    h := h + [m.kind];
    h := h + Word(m.term);
    h := h + Word(m.seqNo);
    h := h + m.prevHash;
    h := WriteLenPrefixed(h, m.payload);
  }

  method EntryInput(r: LogRecord) returns (h: Bytes)
    ensures h == RecordBytes(r)
  {
    h := ENTRY_DOMAIN;
    h := h + Word(r.term);
    h := h + Word(r.index);
    h := WriteLenPrefixed(h, r.cmd);
    h := h + r.prevHash;
  }
}

/**
 * Copying a request into a flat buffer: header, write set and updates one after the other,
 * with the two pointers of the copied header set to the copied arrays.
 *
 * Memory is one array of bytes and a pointer is an index into it. A `Request` has 32 bytes,
 * as on 64-bit Linux: `db_` at 0, `num_writes_` at 8, `writeset_` at 16, `updates_` at 24.
 */
module CopyRequest {
  import opened Base
  import opened Bytes
  import Records

  type Memory = m: seq<Byte> | |m| < TWO64
  type Address = Word

  const HEADER: nat := 32
  const TWO32: nat := 0x1_0000_0000

  /***** ROUNDUP *****/

  /** `((n)-1 + (v) - ((n)-1) % (v))`. */
  function RoundUp(n: nat, v: nat): nat
    requires 1 <= n && 1 <= v
  {
    n - 1 + v - (n - 1) % v
  }

  /** The least multiple of v that is not below n. */
  lemma RoundUpIsLeast(n: nat, v: nat)
    requires 1 <= n && 1 <= v
    ensures RoundUp(n, v) % v == 0 && n <= RoundUp(n, v)
    ensures forall c: nat :: n <= c * v ==> RoundUp(n, v) <= c * v
  {
    var q := (n - 1) / v;
    assert RoundUp(n, v) == (q + 1) * v by {
      assert n - 1 == q * v + (n - 1) % v;
      assert (q + 1) * v == q * v + v;
    }
    MultipleMod(q + 1, v);
    forall c: nat | n <= c * v
      ensures (q + 1) * v <= c * v
    {
      if c <= q {
        Grows(c, q, v);
        assert false;
      }
      Grows(q + 1, c, v);
    }
  }

  lemma Grows(a: nat, b: nat, v: nat)
    requires a <= b
    ensures a * v <= b * v
  {
    assert b * v == a * v + (b - a) * v;
  }

  lemma {:induction false} MultipleMod(a: nat, v: nat)
    requires 1 <= v
    ensures (a * v) % v == 0
  {
    if 0 < a {
      MultipleMod(a - 1, v);
      assert a * v == (a - 1) * v + v;
      assert (a * v - v) % v == (a * v) % v by {
        ModStep(a * v - v, v);
      }
    }
  }

  lemma ModStep(x: nat, v: nat)
    requires 1 <= v
    ensures (x + v) % v == x % v
  {
    var q, m := x / v, x % v;
    assert x == q * v + m;
    assert (q + 1) * v == q * v + v;
    assert x + v == (q + 1) * v + m;
    UniqueMod(x + v, v, q + 1, m);
  }

  lemma UniqueMod(x: nat, v: nat, q: nat, m: nat)
    requires 1 <= v && x == q * v + m && m < v
    ensures x % v == m
  {
    var p, k := x / v, x % v;
    assert x == p * v + k;
    if p < q {
      Grows(p + 1, q, v);
    } else if q < p {
      Grows(q + 1, p, v);
    }
  }

  /***** Sizes *****/

  /** Where the write set starts in the copy. */
  const ARRAYS: nat := RoundUp(HEADER, 8)

  /** The bytes CopyRequest fills for n writes. */
  function Extent(n: nat): nat {
    ARRAYS + 8 * n + 8 * Records.FIELDS
  }

  /** `CopySize`: the number of words is added up in 32 bits. */
  function CopySize(n: nat): nat
    requires n < TWO32
  {
    ARRAYS + 8 * ((Records.FIELDS + n) % TWO32)
  }

  /** CopySize is the size of the copy exactly when that sum does not wrap around. */
  lemma CopySizeExact(n: nat)
    requires n < TWO32
    ensures CopySize(n) == Extent(n) <==> n + Records.FIELDS < TWO32
  {
  }

  /** The largest request shows it: 9 words are measured, more than four thousand million copied. */
  lemma CopySizeWraps()
    ensures CopySize(TWO32 - 1) == 104 && Extent(TWO32 - 1) == 0x8_0000_0068
  {
  }

  /***** Requests in memory *****/

  function WordAt(mem: Memory, a: nat): Word
    requires a + 8 <= |mem|
  {
    DecodeWord(mem[a..a + 8])
  }

  function WordsAt(mem: Memory, a: nat, n: nat): (ws: seq<Word>)
    requires a + 8 * n <= |mem|
    ensures |ws| == n
  {
    seq(n, i requires 0 <= i < n && a + 8 * n <= |mem| => WordAt(mem, a + 8 * i))
  }

  function NumWrites(mem: Memory, p: nat): (n: nat)
    requires p + HEADER <= |mem|
    ensures n < TWO32
  {
    assert Pow256(4) == TWO32;
    Decode(mem[p + 8..p + 12])
  }

  function WritesetPtr(mem: Memory, p: nat): Address
    requires p + HEADER <= |mem|
  {
    WordAt(mem, p + 16)
  }

  function UpdatesPtr(mem: Memory, p: nat): Address
    requires p + HEADER <= |mem|
  {
    WordAt(mem, p + 24)
  }

  /** p points to a request whose arrays are in memory. */
  predicate IsRequest(mem: Memory, p: nat) {
    && p + HEADER <= |mem|
    && WritesetPtr(mem, p) + 8 * NumWrites(mem, p) <= |mem|
    && UpdatesPtr(mem, p) + 8 * Records.FIELDS <= |mem|
  }

  /** What a request says: its database, its write set and its updates. */
  datatype Content = Content(db: Address, writeset: seq<Word>, updates: seq<Word>)

  function ContentAt(mem: Memory, p: nat): Content
    requires IsRequest(mem, p)
  {
    Content(WordAt(mem, p), WordsAt(mem, WritesetPtr(mem, p), NumWrites(mem, p)),
            WordsAt(mem, UpdatesPtr(mem, p), Records.FIELDS))
  }

  /** The n bytes at a and the m bytes at b have none in common. */
  predicate Apart(a: nat, n: nat, b: nat, m: nat) {
    a + n <= b || b + m <= a
  }

  /** No byte of the request at p, its arrays included, is among the n bytes at a. */
  predicate RequestApart(mem: Memory, p: nat, a: nat, n: nat)
    requires IsRequest(mem, p)
  {
    && Apart(p, HEADER, a, n)
    && Apart(WritesetPtr(mem, p), 8 * NumWrites(mem, p), a, n)
    && Apart(UpdatesPtr(mem, p), 8 * Records.FIELDS, a, n)
  }

  /** There is room for the copy at buf, apart from the request. */
  predicate CanCopy(mem: Memory, buf: nat, p: nat) {
    && IsRequest(mem, p)
    && buf + Extent(NumWrites(mem, p)) <= |mem|
    && RequestApart(mem, p, buf, Extent(NumWrites(mem, p)))
  }

  /***** Writing *****/

  function Patch(mem: Memory, a: nat, bs: seq<Byte>): (mem': Memory)
    requires a + |bs| <= |mem|
    ensures |mem'| == |mem|
  {
    seq(|mem|, i requires 0 <= i < |mem| => if a <= i < a + |bs| then bs[i - a] else mem[i])
  }

  /** `memcpy` of len bytes. */
  function CopyBytes(mem: Memory, to: nat, from: nat, len: nat): (mem': Memory)
    requires to + len <= |mem| && from + len <= |mem|
    ensures |mem'| == |mem|
  {
    Patch(mem, to, mem[from..from + len])
  }

  /** Header and write set copied, and the pointer to the write set replaced. */
  function WritesetPart(mem: Memory, buf: nat, p: nat, data: nat, n: nat, ws: nat): (mem': Memory)
    requires data == buf + HEADER && data + 8 * n <= |mem|
    requires p + HEADER <= |mem| && ws + 8 * n <= |mem|
    ensures |mem'| == |mem|
  {
    var mem1 := CopyBytes(mem, buf, p, HEADER);
    var mem2 := CopyBytes(mem1, data, ws, 8 * n);
    Patch(mem2, buf + 16, EncodeWord(data))
  }

  /** The updates copied, and the pointer to them replaced. */
  function UpdatesPart(mem: Memory, buf: nat, at: nat, us: nat): (mem': Memory)
    requires buf + HEADER <= at && at + 8 * Records.FIELDS <= |mem| && us + 8 * Records.FIELDS <= |mem|
    ensures |mem'| == |mem|
  {
    Patch(CopyBytes(mem, at, us, 8 * Records.FIELDS), buf + 24, EncodeWord(at))
  }

  /** The memory after CopyRequest. */
  function Copied(mem: Memory, buf: nat, p: nat): (mem': Memory)
    requires CanCopy(mem, buf, p)
    ensures |mem'| == |mem|
  {
    var n, data := NumWrites(mem, p), buf + ARRAYS;
    UpdatesPart(WritesetPart(mem, buf, p, data, n, WritesetPtr(mem, p)), buf, data + 8 * n, UpdatesPtr(mem, p))
  }

  /** The bytes from a on are the same. */
  ghost predicate Same(mem: Memory, mem': Memory, a: nat, n: nat) {
    |mem'| == |mem| && a + n <= |mem| && mem'[a..a + n] == mem[a..a + n]
  }

  /** mem' is mem with bs at a. */
  ghost predicate Patched(mem: Memory, mem': Memory, a: nat, bs: seq<Byte>) {
    && |mem'| == |mem| && a + |bs| <= |mem|
    && mem'[a..a + |bs|] == bs
    && (forall b: nat, n: nat :: b + n <= |mem| && Apart(a, |bs|, b, n) ==> Same(mem, mem', b, n))
  }

  lemma PatchEffect(mem: Memory, a: nat, bs: seq<Byte>)
    requires a + |bs| <= |mem|
    ensures Patched(mem, Patch(mem, a, bs), a, bs)
  {
    var mem' := Patch(mem, a, bs);
    forall b: nat, n: nat | b + n <= |mem| && Apart(a, |bs|, b, n)
      ensures Same(mem, mem', b, n)
    {
      assert forall i :: b <= i < b + n ==> mem'[i] == mem[i];
    }
  }

  lemma SubSlice(mem: Memory, a: nat, n: nat, i: nat, len: nat)
    requires a + n <= |mem| && i + len <= n
    ensures mem[a + i..a + i + len] == mem[a..a + n][i..i + len]
  {
    var x, y := mem[a + i..a + i + len], mem[a..a + n][i..i + len];
    assert forall j :: 0 <= j < len ==> x[j] == mem[a + i + j] && y[j] == mem[a + i + j];
  }

  lemma SameWords(mem: Memory, mem': Memory, a: nat, b: nat, n: nat)
    requires a + 8 * n <= |mem| && b + 8 * n <= |mem'| && mem'[b..b + 8 * n] == mem[a..a + 8 * n]
    ensures WordsAt(mem', b, n) == WordsAt(mem, a, n)
  {
    forall i | 0 <= i < n
      ensures WordAt(mem', b + 8 * i) == WordAt(mem, a + 8 * i)
    {
      SubSlice(mem', b, 8 * n, 8 * i, 8);
      SubSlice(mem, a, 8 * n, 8 * i, 8);
    }
  }

  /** The five memories, each written over a part of the one before. */
  ghost predicate Stages(mem: Memory, m1: Memory, m2: Memory, m3: Memory, m4: Memory, m5: Memory,
                         buf: nat, p: nat, n: nat, ws: nat, us: nat)
  {
    var data, len := buf + HEADER, 8 * Records.FIELDS;
    && |m1| == |m2| == |m3| == |m4| == |m5| == |mem|
    && p + HEADER <= |mem| && ws + 8 * n <= |mem| && us + len <= |mem| && data + 8 * n + len <= |mem|
    && Patched(mem, m1, buf, mem[p..p + HEADER])
    && Patched(m1, m2, data, m1[ws..ws + 8 * n])
    && Patched(m2, m3, buf + 16, EncodeWord(data))
    && Patched(m3, m4, data + 8 * n, m3[us..us + len])
    && Patched(m4, m5, buf + 24, EncodeWord(data + 8 * n))
  }

  lemma WritesetStages(mem: Memory, buf: nat, p: nat, data: nat, n: nat, ws: nat)
    returns (m1: Memory, m2: Memory, m3: Memory)
    requires data == buf + HEADER && data + 8 * n <= |mem|
    requires p + HEADER <= |mem| && ws + 8 * n <= |mem|
    ensures m3 == WritesetPart(mem, buf, p, data, n, ws) && |m1| == |m2| == |mem|
    ensures Patched(mem, m1, buf, mem[p..p + HEADER])
    ensures Patched(m1, m2, data, m1[ws..ws + 8 * n])
    ensures Patched(m2, m3, buf + 16, EncodeWord(data))
  {
    m1 := CopyBytes(mem, buf, p, HEADER);
    PatchEffect(mem, buf, mem[p..p + HEADER]);
    m2 := CopyBytes(m1, data, ws, 8 * n);
    PatchEffect(m1, data, m1[ws..ws + 8 * n]);
    m3 := Patch(m2, buf + 16, EncodeWord(data));
    PatchEffect(m2, buf + 16, EncodeWord(data));
  }

  lemma UpdatesStages(mem: Memory, buf: nat, at: nat, us: nat) returns (m4: Memory, m5: Memory)
    requires buf + HEADER <= at && at + 8 * Records.FIELDS <= |mem| && us + 8 * Records.FIELDS <= |mem|
    ensures m5 == UpdatesPart(mem, buf, at, us) && |m4| == |mem|
    ensures Patched(mem, m4, at, mem[us..us + 8 * Records.FIELDS])
    ensures Patched(m4, m5, buf + 24, EncodeWord(at))
  {
    m4 := CopyBytes(mem, at, us, 8 * Records.FIELDS);
    PatchEffect(mem, at, mem[us..us + 8 * Records.FIELDS]);
    m5 := Patch(m4, buf + 24, EncodeWord(at));
    PatchEffect(m4, buf + 24, EncodeWord(at));
  }

  lemma StagesHold(mem: Memory, buf: nat, p: nat)
    returns (m1: Memory, m2: Memory, m3: Memory, m4: Memory, m5: Memory)
    requires CanCopy(mem, buf, p)
    ensures Stages(mem, m1, m2, m3, m4, m5, buf, p, NumWrites(mem, p), WritesetPtr(mem, p), UpdatesPtr(mem, p))
    ensures m5 == Copied(mem, buf, p)
  {
    hide Patched, CopyBytes, WordAt, Decode;
    var n, data := NumWrites(mem, p), buf + ARRAYS;
    var ws, us := WritesetPtr(mem, p), UpdatesPtr(mem, p);
    m1, m2, m3 := WritesetStages(mem, buf, p, data, n, ws);
    m4, m5 := UpdatesStages(m3, buf, data + 8 * n, us);
  }

  /** Bytes that none of the stages writes. */
  lemma StagesFrame(mem: Memory, m1: Memory, m2: Memory, m3: Memory, m4: Memory, m5: Memory,
                    buf: nat, p: nat, n: nat, ws: nat, us: nat, b: nat, c: nat)
    requires Stages(mem, m1, m2, m3, m4, m5, buf, p, n, ws, us)
    requires b + c <= |mem| && Apart(buf, Extent(n), b, c)
    ensures Same(mem, m3, b, c) && Same(mem, m5, b, c)
  {
    assert Same(mem, m1, b, c) && Same(m1, m2, b, c) && Same(m2, m3, b, c) && Same(m3, m4, b, c) && Same(m4, m5, b, c);
  }

  lemma StagesHeader(mem: Memory, m1: Memory, m2: Memory, m3: Memory, m4: Memory, m5: Memory,
                     buf: nat, p: nat, n: nat, ws: nat, us: nat)
    requires Stages(mem, m1, m2, m3, m4, m5, buf, p, n, ws, us)
    ensures m5[buf..buf + 16] == mem[p..p + 16]
    ensures WordAt(m5, buf + 16) == buf + HEADER && WordAt(m5, buf + 24) == buf + HEADER + 8 * n
  {
    hide Decode, EncodeWord;
    SubSlice(m1, buf, HEADER, 0, 16);
    SubSlice(mem, p, HEADER, 0, 16);
    assert Same(m1, m2, buf, 16) && Same(m2, m3, buf, 16) && Same(m3, m4, buf, 16) && Same(m4, m5, buf, 16);
    assert Same(m3, m4, buf + 16, 8) && Same(m4, m5, buf + 16, 8);
    WordRoundTrip(buf + HEADER);
    WordRoundTrip(buf + HEADER + 8 * n);
  }

  lemma StagesArrays(mem: Memory, m1: Memory, m2: Memory, m3: Memory, m4: Memory, m5: Memory,
                     buf: nat, p: nat, n: nat, ws: nat, us: nat)
    requires Stages(mem, m1, m2, m3, m4, m5, buf, p, n, ws, us)
    requires Apart(buf, Extent(n), ws, 8 * n) && Apart(buf, Extent(n), us, 8 * Records.FIELDS)
    ensures var data, len := buf + HEADER, 8 * Records.FIELDS;
            && m5[data..data + 8 * n] == mem[ws..ws + 8 * n]
            && m5[data + 8 * n..data + 8 * n + len] == mem[us..us + len]
  {
    var data, len := buf + HEADER, 8 * Records.FIELDS;
    assert Same(mem, m1, ws, 8 * n);
    assert Same(m2, m3, data, 8 * n) && Same(m3, m4, data, 8 * n) && Same(m4, m5, data, 8 * n);
    StagesFrame(mem, m1, m2, m3, m4, m5, buf, p, n, ws, us, us, len);
    assert Same(m4, m5, data + 8 * n, len);
  }

  /** Bytes outside the copy are not touched. */
  lemma CopiedFrame(mem: Memory, buf: nat, p: nat, b: nat, n: nat)
    requires CanCopy(mem, buf, p) && b + n <= |mem| && Apart(buf, Extent(NumWrites(mem, p)), b, n)
    ensures Same(mem, Copied(mem, buf, p), b, n)
  {
    var m1, m2, m3, m4, m5 := StagesHold(mem, buf, p);
    StagesFrame(mem, m1, m2, m3, m4, m5, buf, p, NumWrites(mem, p), WritesetPtr(mem, p), UpdatesPtr(mem, p), b, n);
  }

  /** mem' has at buf a header and arrays with the bytes of those at p, ws and us in mem. */
  ghost predicate Parts(mem: Memory, mem': Memory, buf: nat, p: nat, n: nat, ws: nat, us: nat) {
    var data, len := buf + HEADER, 8 * Records.FIELDS;
    && |mem'| == |mem| && buf + Extent(n) <= |mem|
    && p + HEADER <= |mem| && ws + 8 * n <= |mem| && us + len <= |mem|
    && mem'[buf..buf + 16] == mem[p..p + 16]
    && WordAt(mem', buf + 16) == data && WordAt(mem', buf + 24) == data + 8 * n
    && mem'[data..data + 8 * n] == mem[ws..ws + 8 * n]
    && mem'[data + 8 * n..data + 8 * n + len] == mem[us..us + len]
  }

  lemma CopiedParts(mem: Memory, buf: nat, p: nat)
    requires CanCopy(mem, buf, p)
    ensures Parts(mem, Copied(mem, buf, p), buf, p, NumWrites(mem, p), WritesetPtr(mem, p), UpdatesPtr(mem, p))
  {
    hide Copied, Stages, WordAt, Decode;
    var n, ws, us := NumWrites(mem, p), WritesetPtr(mem, p), UpdatesPtr(mem, p);
    var m1, m2, m3, m4, m5 := StagesHold(mem, buf, p);
    StagesHeader(mem, m1, m2, m3, m4, m5, buf, p, n, ws, us);
    StagesArrays(mem, m1, m2, m3, m4, m5, buf, p, n, ws, us);
  }

  /**
   * Byte by byte: database and number of writes are the original's, the pointers lead to the
   * 32nd byte and to the end of the write set there, and the arrays hold the original's bytes.
   */
  lemma CopyLayout(mem: Memory, buf: nat, p: nat)
    requires CanCopy(mem, buf, p)
    ensures var mem', n := Copied(mem, buf, p), Decode(mem[p + 8..p + 12]);
            var ws, us := DecodeWord(mem[p + 16..p + 24]), DecodeWord(mem[p + 24..p + 32]);
            && buf + 112 + 8 * n <= |mem| && ws + 8 * n <= |mem| && us + 80 <= |mem|
            && mem'[buf..buf + 16] == mem[p..p + 16]
            && mem'[buf + 16..buf + 24] == EncodeWord(buf + 32)
            && mem'[buf + 24..buf + 32] == EncodeWord(buf + 32 + 8 * n)
            && mem'[buf + 32..buf + 32 + 8 * n] == mem[ws..ws + 8 * n]
            && mem'[buf + 32 + 8 * n..buf + 112 + 8 * n] == mem[us..us + 80]
  {
    hide Copied, Decode, EncodeWord;
    CopiedParts(mem, buf, p);
    var mem' := Copied(mem, buf, p);
    BytesOfWord(mem'[buf + 16..buf + 24]);
    BytesOfWord(mem'[buf + 24..buf + 32]);
  }

  lemma PartsHeader(mem: Memory, mem': Memory, buf: nat, p: nat, n: nat, ws: nat, us: nat)
    requires Parts(mem, mem', buf, p, n, ws, us)
    ensures WordAt(mem', buf) == WordAt(mem, p) && NumWrites(mem', buf) == NumWrites(mem, p)
  {
    SubSlice(mem', buf, 16, 0, 8);
    SubSlice(mem, p, 16, 0, 8);
    SubSlice(mem', buf, 16, 8, 4);
    SubSlice(mem, p, 16, 8, 4);
  }

  /**
   * The request at buf in mem' says the same as the one at p in mem, and its arrays follow
   * its header and each other without a gap.
   */
  ghost predicate IsCopy(mem: Memory, p: nat, mem': Memory, buf: nat) {
    && IsRequest(mem, p) && IsRequest(mem', buf)
    && ContentAt(mem', buf) == ContentAt(mem, p)
    && NumWrites(mem', buf) == NumWrites(mem, p)
    && WritesetPtr(mem', buf) == buf + HEADER
    && UpdatesPtr(mem', buf) == buf + HEADER + 8 * NumWrites(mem, p)
  }

  lemma PartsContent(mem: Memory, mem': Memory, buf: nat, p: nat)
    requires IsRequest(mem, p)
    requires Parts(mem, mem', buf, p, NumWrites(mem, p), WritesetPtr(mem, p), UpdatesPtr(mem, p))
    ensures IsCopy(mem, p, mem', buf)
  {
    hide WordAt, Decode;
    var n, ws, us := NumWrites(mem, p), WritesetPtr(mem, p), UpdatesPtr(mem, p);
    PartsHeader(mem, mem', buf, p, n, ws, us);
    SameWords(mem, mem', ws, buf + HEADER, n);
    SameWords(mem, mem', us, buf + HEADER + 8 * n, Records.FIELDS);
  }

  /***** The round trip *****/

  /**
   * The copy is a request that says the same as the original: the same database, write set
   * and updates.
   */
  lemma CopyRoundTrip(mem: Memory, buf: nat, p: nat)
    requires CanCopy(mem, buf, p)
    ensures IsCopy(mem, p, Copied(mem, buf, p), buf)
  {
    CopiedParts(mem, buf, p);
    PartsContent(mem, Copied(mem, buf, p), buf, p);
  }

  /** The copied arrays are aligned exactly if the buffer is. */
  lemma CopyAligned(mem: Memory, buf: nat, p: nat)
    requires CanCopy(mem, buf, p)
    ensures var mem' := Copied(mem, buf, p);
            && IsRequest(mem', buf)
            && (WritesetPtr(mem', buf) % 8 == 0 <==> buf % 8 == 0)
            && (UpdatesPtr(mem', buf) % 8 == 0 <==> buf % 8 == 0)
  {
    hide Parts, WordAt, WordsAt;
    hide Copied, ContentAt, Decode;
    CopyRoundTrip(mem, buf, p);
  }

  /** A request none of whose bytes is in the copy is as it was; so is the one copied. */
  lemma OtherRequestKept(mem: Memory, buf: nat, p: nat, q: nat)
    requires CanCopy(mem, buf, p) && IsRequest(mem, q) && RequestApart(mem, q, buf, Extent(NumWrites(mem, p)))
    ensures var mem' := Copied(mem, buf, p);
            && IsRequest(mem', q) && ContentAt(mem', q) == ContentAt(mem, q)
            && WritesetPtr(mem', q) == WritesetPtr(mem, q) && UpdatesPtr(mem', q) == UpdatesPtr(mem, q)
            && NumWrites(mem', q) == NumWrites(mem, q)
  {
    hide Copied, Decode, RoundUp, WordsAt;
    var mem', n := Copied(mem, buf, p), NumWrites(mem, q);
    CopiedFrame(mem, buf, p, q, 8);
    CopiedFrame(mem, buf, p, q + 8, 4);
    CopiedFrame(mem, buf, p, q + 16, 8);
    CopiedFrame(mem, buf, p, q + 24, 8);
    CopiedFrame(mem, buf, p, WritesetPtr(mem, q), 8 * n);
    CopiedFrame(mem, buf, p, UpdatesPtr(mem, q), 8 * Records.FIELDS);
    SameWords(mem, mem', WritesetPtr(mem, q), WritesetPtr(mem, q), n);
    SameWords(mem, mem', UpdatesPtr(mem, q), UpdatesPtr(mem, q), Records.FIELDS);
  }

  /***** The process pool's request buffers *****/

  const RQST_BUF_SZ: nat := 1024

  function Slot(base: nat, i: nat): nat {
    base + i * RQST_BUF_SZ
  }

  /** q's header and arrays are all within the slot at a. */
  predicate WithinSlot(mem: Memory, q: nat, a: nat)
    requires IsRequest(mem, q)
  {
    && a <= q && q + HEADER <= a + RQST_BUF_SZ
    && a <= WritesetPtr(mem, q) && WritesetPtr(mem, q) + 8 * NumWrites(mem, q) <= a + RQST_BUF_SZ
    && a <= UpdatesPtr(mem, q) && UpdatesPtr(mem, q) + 8 * Records.FIELDS <= a + RQST_BUF_SZ
  }

  lemma SlotsApart(base: nat, i: nat, j: nat)
    requires i != j
    ensures Slot(base, 0) == base && Slot(base, i + 1) == Slot(base, i) + 1024
    ensures Apart(Slot(base, i), RQST_BUF_SZ, Slot(base, j), RQST_BUF_SZ)
  {
  }

  /**
   * Copying into slot i a request that passes the pool's size check keeps within the slot,
   * and leaves a request copied into another slot as it is; the check means that exactly for
   * the write sets whose size does not wrap around.
   */
  lemma SlotsNeverInterfere(mem: Memory, base: nat, i: nat, p: nat, j: nat)
    requires i != j && CanCopy(mem, Slot(base, i), p)
    requires NumWrites(mem, p) + Records.FIELDS < TWO32 && CopySize(NumWrites(mem, p)) <= RQST_BUF_SZ
    ensures var mem' := Copied(mem, Slot(base, i), p);
            && IsRequest(mem', Slot(base, i)) && WithinSlot(mem', Slot(base, i), Slot(base, i))
            && (IsRequest(mem, Slot(base, j)) && WithinSlot(mem, Slot(base, j), Slot(base, j)) ==>
                  && IsRequest(mem', Slot(base, j)) && WithinSlot(mem', Slot(base, j), Slot(base, j))
                  && ContentAt(mem', Slot(base, j)) == ContentAt(mem, Slot(base, j)))
  {
    hide Copied, Decode, WordsAt;
    var a, b := Slot(base, i), Slot(base, j);
    CopySizeExact(NumWrites(mem, p));
    CopyRoundTrip(mem, a, p);
    assert NumWrites(Copied(mem, a, p), a) == |ContentAt(mem, p).writeset|;
    SlotsApart(base, i, j);
    if IsRequest(mem, b) && WithinSlot(mem, b, b) {
      OtherRequestKept(mem, a, p, b);
    }
  }

  /** What the pool's size check lets through: 114 writes at most, or a size that wraps around. */
  lemma SizeCheck(n: nat)
    requires n < TWO32
    ensures CopySize(n) <= RQST_BUF_SZ <==> n <= 114 || TWO32 <= n + Records.FIELDS
    ensures Extent(n) <= RQST_BUF_SZ <==> n <= 114
  {
  }

  /***** In place *****/

  method WriteBytes(mem: array<Byte>, a: nat, bs: seq<Byte>)
    requires mem.Length < TWO64 && a + |bs| <= mem.Length
    modifies mem
    ensures mem[..] == Patch(old(mem[..]), a, bs)
  {
    forall i | 0 <= i < |bs| {
      mem[a + i] := bs[i];
    }
  }

  /** The C library's memcpy, whose ranges must not overlap. */
  method MemCopy(mem: array<Byte>, to: nat, from: nat, len: nat)
    requires mem.Length < TWO64 && to + len <= mem.Length && from + len <= mem.Length && Apart(to, len, from, len)
    modifies mem
    ensures mem[..] == CopyBytes(old(mem[..]), to, from, len)
  {
    WriteBytes(mem, to, mem[from..from + len]);
    assert old(mem[from..from + len]) == old(mem[..])[from..from + len];
  }

  /** Copies header and write set, and links the write set. */
  method CopyWriteset(mem: array<Byte>, buf: nat, p: nat, data: nat, n: nat, ws: nat)
    requires mem.Length < TWO64 && data == buf + HEADER && data + 8 * n <= mem.Length
    requires p + HEADER <= mem.Length && ws + 8 * n <= mem.Length
    requires Apart(p, HEADER, buf, HEADER) && Apart(ws, 8 * n, data, 8 * n)
    modifies mem
    ensures mem[..] == WritesetPart(old(mem[..]), buf, p, data, n, ws)
  {
    MemCopy(mem, buf, p, HEADER);
    MemCopy(mem, data, ws, 8 * n);
    WriteBytes(mem, buf + 16, EncodeWord(data));
  }

  /** Copies and links the updates. */
  method CopyUpdates(mem: array<Byte>, buf: nat, at: nat, us: nat)
    requires mem.Length < TWO64 && buf + HEADER <= at && at + 8 * Records.FIELDS <= mem.Length
    requires us + 8 * Records.FIELDS <= mem.Length && Apart(us, 8 * Records.FIELDS, at, 8 * Records.FIELDS)
    modifies mem
    ensures mem[..] == UpdatesPart(old(mem[..]), buf, at, us)
  {
    MemCopy(mem, at, us, 8 * Records.FIELDS);
    WriteBytes(mem, buf + 24, EncodeWord(at));
  }

  /** `CopyRequest`; the original is read through its own header, which the copy does not touch. */
  method CopyRequest(mem: array<Byte>, buf: nat, p: nat)
    requires mem.Length < TWO64 && CanCopy(mem[..], buf, p)
    modifies mem
    ensures mem[..] == Copied(old(mem[..]), buf, p)
  {
    hide WritesetPart, UpdatesPart, WordAt, Decode;
    ghost var before := mem[..];
    var n, ws, us := NumWrites(mem[..], p), WritesetPtr(mem[..], p), UpdatesPtr(mem[..], p);
    var offset := RoundUp(HEADER, 8);
    CopyWriteset(mem, buf, p, buf + offset, n, ws);
    CopyUpdates(mem, buf, buf + offset + 8 * n, us);
  }
}

/** Byte-level helpers shared by every decoder: Python's indexing and slicing rules,
    little-endian integers, nibbles and bits, ASCII text and the list of differing bytes. */
module Bytes {
  import opened Errors

  type byte = b: int | 0 <= b < 256

  function Pow(base: nat, n: nat): nat
  {
    if n == 0 then 1 else base * Pow(base, n - 1)
  }

  /** `int.from_bytes(s, 'little')`: the first byte is the least significant one. */
  function LittleEndian(s: seq<byte>): nat
  {
    if s == [] then 0 else s[0] + 256 * LittleEndian(s[1..])
  }

  /** An `n`-byte little-endian value is below `256^n`. */
  lemma {:induction false} LittleEndianBound(s: seq<byte>)
    ensures LittleEndian(s) < Pow(256, |s|)
  {
    if s != [] {
      LittleEndianBound(s[1..]);
    }
  }

  lemma LittleEndianPair(lo: byte, hi: byte)
    ensures LittleEndian([lo, hi]) == lo + 256 * hi
  {
    assert [lo, hi][1..] == [hi];
    assert [hi][1..] == [];
    assert LittleEndian([hi]) == hi + 256 * LittleEndian([]);
  }

  /** Python's `s[i]`: a negative index counts from the end; any other index outside
      the buffer raises IndexError. */
  function At(s: seq<byte>, i: int): Result<byte>
  {
    if 0 <= i < |s| then Ok(s[i])
    else if -|s| <= i < 0 then Ok(s[|s| + i])
    else Err(IndexOutOfRange(i))
  }

  /** How Python normalises one bound of a slice of a sequence of length `n`. */
  function Clamp(n: nat, i: int): (r: nat)
    ensures r <= n
  {
    if i < 0 then (if i + n < 0 then 0 else i + n)
    else if i > n then n
    else i
  }

  /** Python's `s[a:b]`: never fails, bounds are clamped to the buffer. */
  function Slice(s: seq<byte>, a: int, b: int): seq<byte>
  {
    var lo := Clamp(|s|, a);
    var hi := Clamp(|s|, b);
    if lo < hi then s[lo..hi] else []
  }

  lemma SliceWithin(s: seq<byte>, a: int, b: int)
    requires 0 <= a <= b <= |s|
    ensures Slice(s, a, b) == s[a..b]
  {
  }

  /** `int.from_bytes(s[a:a + n], 'little')`. */
  function Word(s: seq<byte>, a: int, n: nat): nat
  {
    LittleEndian(Slice(s, a, a + n))
  }

  /** A 16-bit little-endian field inside the buffer: low byte first. */
  lemma WordPair(s: seq<byte>, a: int)
    requires 0 <= a && a + 2 <= |s|
    ensures Word(s, a, 2) == s[a] as int + 256 * s[a + 1] as int
  {
    SliceWithin(s, a, a + 2);
    assert s[a..a + 2] == [s[a], s[a + 1]];
    LittleEndianPair(s[a], s[a + 1]);
  }

  /** `(w >> 4 * i) & 0xF`: nibble `i` of `w`, counting from the least significant one. */
  function Nibble(w: nat, i: nat): (r: nat)
    ensures r < 16
  {
    if i == 0 then w % 16 else Nibble(w / 16, i - 1)
  }

  /** `(w >> i) & 0x1`, as a flag. */
  function Bit(w: nat, i: nat): bool
  {
    if i == 0 then w % 2 == 1 else Bit(w / 2, i - 1)
  }

  /** `b''.join([s[start:end + 1] for start, end in ranges])`: inclusive ranges, in order. */
  function Gather(s: seq<byte>, ranges: seq<(int, int)>): seq<byte>
  {
    if ranges == [] then [] else Slice(s, ranges[0].0, ranges[0].1 + 1) + Gather(s, ranges[1..])
  }

  lemma GatherCons(s: seq<byte>, r: (int, int), rest: seq<(int, int)>)
    ensures Gather(s, [r] + rest) == Slice(s, r.0, r.1 + 1) + Gather(s, rest)
  {
    assert ([r] + rest)[1..] == rest;
  }

  /** Gathering one-byte ranges picks those bytes, in order. */
  lemma {:induction false} GatherSingles(s: seq<byte>, ranges: seq<(int, int)>)
    requires forall i :: 0 <= i < |ranges| ==> 0 <= ranges[i].0 == ranges[i].1 < |s|
    ensures |Gather(s, ranges)| == |ranges|
    ensures forall i :: 0 <= i < |ranges| ==> Gather(s, ranges)[i] == s[ranges[i].0]
  {
    if ranges != [] {
      GatherSingles(s, ranges[1..]);
      SliceWithin(s, ranges[0].0, ranges[0].0 + 1);
    }
  }

  /** The position of the first byte above 0x7F, or `|s|` when there is none. */
  function FirstNonAscii(s: seq<byte>): (k: nat)
    ensures k <= |s|
    ensures forall i :: 0 <= i < k ==> s[i] < 0x80
    ensures k < |s| ==> s[k] >= 0x80
  {
    if s == [] then 0
    else if s[0] >= 0x80 then 0
    else 1 + FirstNonAscii(s[1..])
  }

  /** `s.decode('ascii')`: one character per byte, failing at the first byte above 0x7F. */
  function DecodeAscii(s: seq<byte>): Result<string>
  {
    var k := FirstNonAscii(s);
    if k < |s| then Err(NotAscii(k))
    else Ok(seq(|s|, i requires 0 <= i < |s| => s[i] as char))
  }

  /** `t.split(chr(0))[0]`: the text before the first NUL character. */
  function BeforeNul(t: string): (r: string)
    ensures |r| <= |t| && r == t[..|r|]
    ensures '\0' !in r
    ensures |r| < |t| ==> t[|r|] == '\0'
  {
    if t == "" || t[0] == '\0' then "" else [t[0]] + BeforeNul(t[1..])
  }

  /** The text of an ASCII field: `s.decode('ascii').split(chr(0))[0]`. */
  function AsciiName(s: seq<byte>): Result<string>
  {
    var text :- DecodeAscii(s);
    Ok(BeforeNul(text))
  }

  /** What a decoded ASCII field holds: the characters of the bytes before the first
      NUL, no NUL, and nothing longer than the field; any byte above 0x7F in the field
      makes decoding fail at its position. */
  lemma AsciiNameMeaning(s: seq<byte>)
    ensures AsciiName(s).Err? <==> exists i :: 0 <= i < |s| && s[i] >= 0x80
    ensures AsciiName(s).Err? ==> AsciiName(s).error == NotAscii(FirstNonAscii(s))
    ensures AsciiName(s).Ok? ==>
      var name := AsciiName(s).value;
      && |name| <= |s|
      && '\0' !in name
      && (forall i :: 0 <= i < |name| ==> name[i] as int == s[i])
      && (|name| < |s| ==> s[|name|] == 0)
  {
    var k := FirstNonAscii(s);
    if k == |s| {
      var text := seq(|s|, i requires 0 <= i < |s| => s[i] as char);
      assert DecodeAscii(s) == Ok(text);
      var name := BeforeNul(text);
      assert forall i :: 0 <= i < |name| ==> name[i] == text[i];
    } else {
      assert s[k] >= 0x80;
    }
  }

  /** The indices below `n` where `a` and `b` hold different bytes, as the scanning
      loops of the comparison tools visit them. */
  function DiffsBelow(a: seq<byte>, b: seq<byte>, n: nat): seq<nat>
    requires n <= |a| && n <= |b|
  {
    if n == 0 then [] else DiffsBelow(a, b, n - 1) + (if a[n - 1] != b[n - 1] then [n - 1] else [])
  }

  /** `DiffsBelow` lists exactly the differing indices below `n`, each once, ascending. */
  lemma {:induction false} DiffsBelowExact(a: seq<byte>, b: seq<byte>, n: nat)
    requires n <= |a| && n <= |b|
    ensures forall i: nat :: i in DiffsBelow(a, b, n) <==> i < n && a[i] != b[i]
    ensures forall j, k :: 0 <= j < k < |DiffsBelow(a, b, n)| ==> DiffsBelow(a, b, n)[j] < DiffsBelow(a, b, n)[k]
    ensures forall j :: 0 <= j < |DiffsBelow(a, b, n)| ==> DiffsBelow(a, b, n)[j] < n
  {
    if n > 0 {
      DiffsBelowExact(a, b, n - 1);
    }
  }
}

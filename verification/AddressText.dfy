/** Printing a device address by six overlapping writes into a static buffer. */
module AddressText {
  import opened Types

  const NUL: char := '\0'
  const DIGITS := "0123456789abcdef"

  function Hex2(b: uint8): (s: string)
    ensures |s| == 2
  {
    [DIGITS[b / 16], DIGITS[b % 16]]
  }

  /** The first k bytes, each with its colon. */
  function Groups(bd: Addr, k: nat): (s: string)
    requires k <= 6
    ensures |s| == 3 * k
  {
    if k == 0 then "" else Groups(bd, k - 1) + Hex2(bd[k - 1]) + ":"
  }

  function Text(bd: Addr): (s: string)
    ensures |s| == 17
  {
    Groups(bd, 5) + Hex2(bd[5])
  }

  // ---------- an independent reader of the text ----------

  function DigitValue(c: char): int {
    if '0' <= c <= '9' then c as int - '0' as int
    else if 'a' <= c <= 'f' then c as int - 'a' as int + 10
    else -1
  }

  predicate ByteAt(s: string, p: nat)
    requires p + 2 <= |s|
  {
    DigitValue(s[p]) >= 0 && DigitValue(s[p + 1]) >= 0
  }

  function ReadByte(s: string, p: nat): uint8
    requires p + 2 <= |s| && ByteAt(s, p)
  {
    16 * DigitValue(s[p]) + DigitValue(s[p + 1])
  }

  predicate Shaped(s: string) {
    && |s| == 17
    && s[2] == s[5] == s[8] == s[11] == s[14] == ':'
    && ByteAt(s, 0) && ByteAt(s, 3) && ByteAt(s, 6) && ByteAt(s, 9) && ByteAt(s, 12) && ByteAt(s, 15)
  }

  function Parse(s: string): Option<Addr> {
    if Shaped(s) then
      Some([ReadByte(s, 0), ReadByte(s, 3), ReadByte(s, 6), ReadByte(s, 9), ReadByte(s, 12), ReadByte(s, 15)])
    else
      None
  }

  lemma DigitRoundTrip(d: nat)
    requires d < 16
    ensures DigitValue(DIGITS[d]) == d
  {
    assert DIGITS[0] == '0' && DIGITS[1] == '1' && DIGITS[2] == '2' && DIGITS[3] == '3';
    assert DIGITS[4] == '4' && DIGITS[5] == '5' && DIGITS[6] == '6' && DIGITS[7] == '7';
    assert DIGITS[8] == '8' && DIGITS[9] == '9' && DIGITS[10] == 'a' && DIGITS[11] == 'b';
    assert DIGITS[12] == 'c' && DIGITS[13] == 'd' && DIGITS[14] == 'e' && DIGITS[15] == 'f';
  }

  lemma DigitUnique(c: char)
    requires DigitValue(c) >= 0
    ensures DigitValue(c) < 16 && DIGITS[DigitValue(c)] == c
  {
    DigitRoundTrip(DigitValue(c));
  }

  lemma Nibbles(b: uint8, hi: nat, lo: nat)
    requires hi < 16 && lo < 16
    ensures 16 * hi + lo == b <==> hi == b / 16 && lo == b % 16
  {
  }

  /** A byte is printed at p exactly when it is read there. */
  lemma {:induction false} ByteRoundTrip(s: string, p: nat, b: uint8)
    requires p + 2 <= |s|
    ensures s[p..p + 2] == Hex2(b) <==> ByteAt(s, p) && ReadByte(s, p) == b
  {
    DigitRoundTrip(b / 16);
    DigitRoundTrip(b % 16);
    assert s[p..p + 2] == [s[p], s[p + 1]];
    if ByteAt(s, p) {
      DigitUnique(s[p]);
      DigitUnique(s[p + 1]);
      Nibbles(b, DigitValue(s[p]), DigitValue(s[p + 1]));
    }
  }

  ghost predicate GroupAt(s: string, j: nat, b: uint8)
    requires 3 * j + 3 <= |s|
  {
    s[3 * j..3 * j + 2] == Hex2(b) && s[3 * j + 2] == ':'
  }

  lemma {:induction false} GroupsStep(bd: Addr, k: nat, s: string)
    requires k < 6 && 3 * k + 3 <= |s|
    ensures s[..3 * k + 3] == Groups(bd, k + 1) <==> s[..3 * k] == Groups(bd, k) && GroupAt(s, k, bd[k])
  {
    var front, digits, g := Groups(bd, k), Hex2(bd[k]), Groups(bd, k + 1);
    assert s[..3 * k + 3] == s[..3 * k] + s[3 * k..3 * k + 2] + [s[3 * k + 2]];
    assert g == front + digits + ":";
    assert g[..3 * k] == front && g[3 * k..3 * k + 2] == digits && g[3 * k + 2] == ':';
    if s[..3 * k + 3] == g {
      assert s[..3 * k] == g[..3 * k] && s[3 * k..3 * k + 2] == g[3 * k..3 * k + 2];
    }
  }

  lemma TextAt(s: string, bd: Addr)
    requires |s| == 17
    ensures s == Text(bd) <==>
            && GroupAt(s, 0, bd[0]) && GroupAt(s, 1, bd[1]) && GroupAt(s, 2, bd[2])
            && GroupAt(s, 3, bd[3]) && GroupAt(s, 4, bd[4]) && s[15..17] == Hex2(bd[5])
  {
    GroupsStep(bd, 0, s);
    GroupsStep(bd, 1, s);
    GroupsStep(bd, 2, s);
    GroupsStep(bd, 3, s);
    GroupsStep(bd, 4, s);
    assert s == s[..15] + s[15..17];
  }

  /** The reader accepts a text as the address bd exactly when bd is printed that way. */
  lemma ParseIsInverse(s: string, bd: Addr)
    ensures Parse(s) == Some(bd) <==> s == Text(bd)
  {
    if |s| == 17 {
      TextAt(s, bd);
      assert bd == [bd[0], bd[1], bd[2], bd[3], bd[4], bd[5]];
      ByteRoundTrip(s, 0, bd[0]);
      ByteRoundTrip(s, 3, bd[1]);
      ByteRoundTrip(s, 6, bd[2]);
      ByteRoundTrip(s, 9, bd[3]);
      ByteRoundTrip(s, 12, bd[4]);
      ByteRoundTrip(s, 15, bd[5]);
    }
  }

  lemma PrintingIsInjective(a: Addr, b: Addr)
    ensures Text(a) == Text(b) <==> a == b
  {
    ParseIsInverse(Text(a), a);
    ParseIsInverse(Text(a), b);
  }

  /** sprintf at an offset: the characters, then a terminator. */
  method WriteAt(buf: array<char>, p: nat, s: string)
    requires p + |s| < buf.Length
    modifies buf
    ensures buf[..] == old(buf[..p]) + s + [NUL] + old(buf[p + |s| + 1..])
  {
    for i := 0 to |s|
      invariant buf[..] == old(buf[..p]) + s[..i] + old(buf[p + i..])
    {
      buf[p + i] := s[i];
    }
    buf[p + |s|] := NUL;
  }

  /** The six writes fill the 18 bytes exactly, each terminator overwritten by the next. */
  method BdAddrToStr(bd: Addr, buf: array<char>)
    requires buf.Length == 18
    modifies buf
    ensures buf[..] == Text(bd) + [NUL]
  {
    for i := 0 to 6
      invariant i < 6 ==> buf[..3 * i] == Groups(bd, i)
      invariant i == 6 ==> buf[..] == Text(bd) + [NUL]
    {
      if i + 1 == 6 {
        WriteAt(buf, 3 * i, Hex2(bd[i]));
      } else {
        WriteAt(buf, 3 * i, Hex2(bd[i]) + ":");
        assert buf[..3 * (i + 1)] == Groups(bd, i) + (Hex2(bd[i]) + ":");
      }
    }
  }
}

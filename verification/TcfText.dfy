/**
 * UTF-8 as the reason of a grant is written and read: strictly, with one leading byte-order mark dropped on the way in.
 */
module TcfText {
  import opened Rail

  type Byte = b: int | 0 <= b < 0x100

  // ---------- writing ----------

  /** The bytes of one character (section 3 of RFC 3629). */
  function Units(c: char): (r: seq<Byte>)
    ensures r != []
  {
    var n := c as int;
    if n < 0x80 then [n]
    else if n < 0x800 then [0xC0 + n / 0x40, 0x80 + n % 0x40]
    else if n < 0x1_0000 then [0xE0 + n / 0x1000, 0x80 + n / 0x40 % 0x40, 0x80 + n % 0x40]
    else [0xF0 + n / 0x4_0000, 0x80 + n / 0x1000 % 0x40, 0x80 + n / 0x40 % 0x40, 0x80 + n % 0x40]
  }

  function Utf8(text: string): seq<Byte> {
    if text == "" then [] else Units(text[0]) + Utf8(text[1..])
  }

  // ---------- reading ----------

  predicate IsTail(b: Byte) { 0x80 <= b < 0xC0 }

  function Two(a: int, b: int): int { 0x40 * (a - 0xC0) + (b - 0x80) }
  function Three(a: int, b: int, c: int): int { 0x1000 * (a - 0xE0) + 0x40 * (b - 0x80) + (c - 0x80) }
  function Four(a: int, b: int, c: int, d: int): int {
    0x4_0000 * (a - 0xF0) + 0x1000 * (b - 0x80) + 0x40 * (c - 0x80) + (d - 0x80)
  }

  /** The first character and how many bytes it takes; no overlong form, no surrogate, nothing past the last plane. */
  function Next(b: seq<Byte>): (r: Option<(char, nat)>)
    ensures r.Some? ==> 0 < r.value.1 <= |b|
  {
    if b == [] then None
    else if b[0] < 0x80 then Some((b[0] as char, 1))
    else if |b| < 2 || !IsTail(b[1]) then None
    else if 0xC2 <= b[0] < 0xE0 then Some((Two(b[0], b[1]) as char, 2))
    else if |b| < 3 || !IsTail(b[2]) then None
    else if 0xE0 <= b[0] < 0xF0 then
      var n := Three(b[0], b[1], b[2]);
      if n < 0x800 || 0xD800 <= n < 0xE000 then None else Some((n as char, 3))
    else if |b| < 4 || !IsTail(b[3]) then None
    else if 0xF0 <= b[0] then
      var n := Four(b[0], b[1], b[2], b[3]);
      if n < 0x1_0000 || 0x11_0000 <= n then None else Some((n as char, 4))
    else None
  }

  function FromUtf8(b: seq<Byte>): Option<string>
    decreases |b|
  {
    if b == [] then Some("")
    else
      var next := Next(b);
      if next.None? then None
      else
        var rest := FromUtf8(b[next.value.1..]);
        if rest.None? then None else Some([next.value.0] + rest.value)
  }

  // ---------- each undoes the other ----------

  lemma UnitsRead(c: char, rest: seq<Byte>)
    ensures Next(Units(c) + rest) == Some((c, |Units(c)|))
  {
    var n := c as int;
    var b := Units(c) + rest;
    if n < 0x80 {
    } else if n < 0x800 {
      assert n == 0x40 * (n / 0x40) + n % 0x40;
    } else if n < 0x1_0000 {
      assert n / 0x1000 == n / 0x40 / 0x40;
      assert n == 0x40 * (0x40 * (n / 0x1000) + n / 0x40 % 0x40) + n % 0x40;
    } else {
      assert n / 0x1000 == n / 0x40 / 0x40 && n / 0x4_0000 == n / 0x1000 / 0x40;
      assert n == 0x40 * (0x40 * (0x40 * (n / 0x4_0000) + n / 0x1000 % 0x40) + n / 0x40 % 0x40) + n % 0x40;
    }
  }

  /** The digits of a sum in base 64. */
  lemma Digits(high: nat, low: nat)
    requires low < 0x40
    ensures (0x40 * high + low) / 0x40 == high && (0x40 * high + low) % 0x40 == low
  {
  }

  lemma ReadTwo(a: int, b: int)
    requires 0xC0 <= a && 0x80 <= b < 0xC0
    ensures Two(a, b) / 0x40 == a - 0xC0 && Two(a, b) % 0x40 == b - 0x80
  {
    Digits(a - 0xC0, b - 0x80);
  }

  lemma ReadThree(a: int, b: int, c: int)
    requires 0xE0 <= a && 0x80 <= b < 0xC0 && 0x80 <= c < 0xC0
    ensures var n := Three(a, b, c); n / 0x1000 == a - 0xE0 && n / 0x40 % 0x40 == b - 0x80 && n % 0x40 == c - 0x80
  {
    var high := 0x40 * (a - 0xE0) + (b - 0x80);
    Digits(high, c - 0x80);
    Digits(a - 0xE0, b - 0x80);
    Quotient(Three(a, b, c));
  }

  lemma ReadFour(a: int, b: int, c: int, d: int)
    requires 0xF0 <= a && 0x80 <= b < 0xC0 && 0x80 <= c < 0xC0 && 0x80 <= d < 0xC0
    ensures var n := Four(a, b, c, d);
            n / 0x4_0000 == a - 0xF0 && n / 0x1000 % 0x40 == b - 0x80 && n / 0x40 % 0x40 == c - 0x80
              && n % 0x40 == d - 0x80
  {
    var high := 0x1000 * (a - 0xF0) + 0x40 * (b - 0x80) + (c - 0x80);
    Digits(high, d - 0x80);
    assert high == Three(a - 0x10, b, c);
    ReadThree(a - 0x10, b, c);
    Digits(a - 0xF0, b - 0x80);
    Quotient(high);
    Quotient(Four(a, b, c, d));
  }

  lemma Quotient(n: nat)
    ensures n / 0x40 / 0x40 == n / 0x1000 && n / 0x1000 / 0x40 == n / 0x4_0000
  {
  }

  lemma ReadUnits(b: seq<Byte>)
    requires Next(b).Some?
    ensures b[..Next(b).value.1] == Units(Next(b).value.0)
  {
    hide Two, Three, Four;
    if b[0] < 0x80 {
    } else if b[0] < 0xE0 {
      ReadTwo(b[0], b[1]);
    } else if b[0] < 0xF0 {
      ReadThree(b[0], b[1], b[2]);
    } else {
      ReadFour(b[0], b[1], b[2], b[3]);
    }
  }

  lemma {:induction false} ReadsBack(text: string)
    ensures FromUtf8(Utf8(text)) == Some(text)
  {
    hide Units, Next;
    if text == "" {
    } else {
      var b := Utf8(text);
      UnitsRead(text[0], Utf8(text[1..]));
      ReadsBack(text[1..]);
      assert b[|Units(text[0])|..] == Utf8(text[1..]);
      assert text == [text[0]] + text[1..];
    }
  }

  lemma {:induction false} WritesBack(b: seq<Byte>)
    requires FromUtf8(b).Some?
    ensures Utf8(FromUtf8(b).value) == b
    decreases |b|
  {
    hide Units, Next;
    if b == [] {
    } else {
      var k := Next(b).value.1;
      ReadUnits(b);
      WritesBack(b[k..]);
      var text := FromUtf8(b).value;
      assert text[1..] == FromUtf8(b[k..]).value;
      assert b == b[..k] + b[k..];
    }
  }

  /** Bytes read as a text exactly when they are what the text is written as. */
  lemma Utf8Iff(b: seq<Byte>, text: string)
    ensures FromUtf8(b) == Some(text) <==> Utf8(text) == b
  {
    ReadsBack(text);
    if FromUtf8(b) == Some(text) {
      WritesBack(b);
    }
  }

  // ---------- the byte-order mark ----------

  const MARK: char := '\U{FEFF}'

  /** The bytes open with a byte-order mark. */
  predicate IsMarked(b: seq<Byte>) { |b| >= 3 && b[0] == 0xEF && b[1] == 0xBB && b[2] == 0xBF }

  predicate OpensWithMark(text: string) { text != "" && text[0] == MARK }

  /** What a strict decoder makes of the bytes. */
  function DecodeText(b: seq<Byte>): Option<string> {
    FromUtf8(if IsMarked(b) then b[3..] else b)
  }

  lemma MarkIsWritten(text: string)
    ensures IsMarked(Utf8(text)) <==> OpensWithMark(text)
  {
    if text != "" {
      var b := Utf8(text);
      UnitsRead(text[0], Utf8(text[1..]));
      if IsMarked(b) {
        assert Next(b) == Some((MARK, 3));
      }
    }
  }

  /** A text survives its bytes exactly when it does not open with a byte-order mark. */
  lemma TextRoundTrip(text: string)
    ensures DecodeText(Utf8(text)) == Some(text) <==> !OpensWithMark(text)
  {
    hide Next, Units;
    MarkIsWritten(text);
    ReadsBack(text);
    var b := Utf8(text);
    if IsMarked(b) {
      Utf8Iff(b[3..], text);
      assert |b[3..]| < |b|;
    }
  }

  /** Bytes survive the text they are read as exactly when they do not open with a byte-order mark. */
  lemma TextBack(b: seq<Byte>)
    requires DecodeText(b).Some?
    ensures |Utf8(DecodeText(b).value)| <= |b|
    ensures Utf8(DecodeText(b).value) == b <==> !IsMarked(b)
    ensures !IsMarked(b) ==> !OpensWithMark(DecodeText(b).value)
  {
    hide Next, Units;
    WritesBack(if IsMarked(b) then b[3..] else b);
    MarkIsWritten(DecodeText(b).value);
  }
}

/**
 What the line and record admission of cul868_flasher/app/hexfile.py:89-110 and 165-179 makes of every text,
 said without the functions that do it.
 */
module HexLaws {
  import opened Common
  import opened HexRecord
  import HexImage

  // ---------------------------------------------------------------- hexadecimal digits with blanks

  /** ASCII white space, as `bytes.fromhex` skips it. */
  predicate IsWhite(c: Byte) { c in {9, 10, 11, 12, 13, 32} }

  function Dense(t: Text): (d: Text)
    ensures |d| <= |t|
  {
    if t == [] then [] else if IsWhite(t[0]) then Dense(t[1..]) else [t[0]] + Dense(t[1..])
  }

  /** White space stands only after an even number of other characters. */
  predicate Paired(t: Text) { forall i :: 0 <= i < |t| && IsWhite(t[i]) ==> |Dense(t[..i])| % 2 == 0 }

  lemma {:induction false} DenseAppend(a: Text, b: Text)
    ensures Dense(a + b) == Dense(a) + Dense(b)
  {
    if a == [] {
      assert a + b == b;
    } else {
      assert (a + b)[1..] == a[1..] + b;
      DenseAppend(a[1..], b);
    }
  }

  lemma PairedAfter(t: Text, n: nat)
    requires n <= |t| && |Dense(t[..n])| % 2 == 0
    ensures Paired(t) ==> Paired(t[n..])
    ensures Paired(t[n..]) && (forall i :: 0 <= i < n && IsWhite(t[i]) ==> |Dense(t[..i])| % 2 == 0) ==> Paired(t)
  {
    hide Dense, IsWhite;
    var rest := t[n..];
    forall k | 0 <= k < |rest| ensures rest[k] == t[n + k] && |Dense(t[..n + k])| % 2 == |Dense(rest[..k])| % 2 {
      assert t[..n + k] == t[..n] + rest[..k];
      DenseAppend(t[..n], rest[..k]);
    }
    forall i | n <= i < |t| ensures t[i] == rest[i - n] && |Dense(t[..i])| % 2 == |Dense(rest[..i - n])| % 2 {
      var k := i - n;
      assert n + k == i && rest[k] == t[n + k];
    }
  }

  /** The upper-case spelling of these bytes. */
  ghost predicate Spells(t: Text, bytes: seq<Byte>) { Paired(t) && Upper(Dense(t)) == ToUpperHex(bytes) }

  lemma {:induction false} FromHexExactly(t: Text)
    ensures forall bytes :: FromHex(t) == Some(bytes) <==> Spells(t, bytes)
    decreases |t|
  {
    hide Spells, IsBlank, IsHexDigit, DigitValue;
    if t == [] {
      NothingSpelled();
    } else if IsBlank(t[0]) {
      FromHexExactly(t[1..]);
      BlankFirst(t);
    } else if |t| >= 2 && IsHexDigit(t[0]) && IsHexDigit(t[1]) {
      FromHexExactly(t[2..]);
      PairFirst(t);
      PairIsRead(t);
    } else {
      OddFirst(t);
    }
  }

  lemma NothingSpelled()
    ensures forall bytes :: Spells([], bytes) <==> bytes == []
  {
    assert Upper([]) == [];
  }

  lemma PairIsRead(t: Text)
    requires |t| >= 2 && IsHexDigit(t[0]) && IsHexDigit(t[1])
    ensures !IsBlank(t[0])
    ensures forall bytes :: FromHex(t) == Some(bytes) <==>
              bytes != [] && bytes[0] == DigitValue(t[0]) * 16 + DigitValue(t[1]) && FromHex(t[2..]) == Some(bytes[1..])
  {
    forall bytes: seq<Byte> | bytes != [] ensures bytes == [bytes[0]] + bytes[1..] {
    }
  }

  lemma BlankFirst(t: Text)
    requires t != [] && IsBlank(t[0])
    ensures forall bytes :: Spells(t, bytes) <==> Spells(t[1..], bytes)
  {
    assert t[..1] == [t[0]] && Dense([t[0]]) == Dense([]);
    assert t[..0] == [];
    PairedAfter(t, 1);
  }

  predicate Digital(c: Byte) { exists v :: 0 <= v < 16 && UpperDigit(v) == c }

  lemma UpperDigits(c: Byte)
    ensures IsHexDigit(c) <==> Digital(Upper([c])[0])
    ensures IsHexDigit(c) ==> UpperDigit(DigitValue(c)) == Upper([c])[0]
    ensures IsHexDigit(c) ==> !IsWhite(c)
  {
    if IsHexDigit(c) {
      assert UpperDigit(DigitValue(c)) == Upper([c])[0];
    }
  }

  lemma UpperDigitsDiffer()
    ensures forall v, w :: 0 <= v < 16 && 0 <= w < 16 && UpperDigit(v) == UpperDigit(w) ==> v == w
  {
  }

  lemma UpperAppend(a: Text, b: Text)
    ensures Upper(a + b) == Upper(a) + Upper(b)
  {
  }

  lemma DenseOne(c: Byte)
    ensures Dense([c]) == if IsWhite(c) then [] else [c]
  {
    assert [c][1..] == [];
  }

  /** Two digits and what follows them. */
  lemma PairFirst(t: Text)
    requires |t| >= 2 && IsHexDigit(t[0]) && IsHexDigit(t[1])
    ensures forall bytes :: Spells(t, bytes) <==>
              bytes != [] && bytes[0] == DigitValue(t[0]) * 16 + DigitValue(t[1]) && Spells(t[2..], bytes[1..])
  {
    UpperDigits(t[0]);
    UpperDigits(t[1]);
    UpperDigitsDiffer();
    DenseOne(t[0]);
    DenseOne(t[1]);
    assert t[..2] == [t[0]] + [t[1]] && t == t[..2] + t[2..] && t[..1] == [t[0]] && t[..0] == [];
    DenseAppend([t[0]], [t[1]]);
    DenseAppend(t[..2], t[2..]);
    PairedAfter(t, 2);
    UpperAppend([t[0]], [t[1]]);
    UpperAppend(t[..2], Dense(t[2..]));
    var front := [UpperDigit(DigitValue(t[0])), UpperDigit(DigitValue(t[1]))];
    assert Upper(Dense(t)) == front + Upper(Dense(t[2..]));
    forall bytes
      ensures Spells(t, bytes) <==>
                bytes != [] && bytes[0] == DigitValue(t[0]) * 16 + DigitValue(t[1]) && Spells(t[2..], bytes[1..])
    {
      HexSplit(front, Upper(Dense(t[2..])), bytes, DigitValue(t[0]), DigitValue(t[1]));
    }
  }

  lemma HexSplit(front: Text, rest: Text, bytes: seq<Byte>, high: int, low: int)
    requires 0 <= high < 16 && 0 <= low < 16 && front == [UpperDigit(high), UpperDigit(low)]
    ensures front + rest == ToUpperHex(bytes) <==>
            bytes != [] && bytes[0] == high * 16 + low && rest == ToUpperHex(bytes[1..])
  {
    hide UpperDigit;
    if bytes == [] {
      assert front + rest != [];
    } else {
      var first := [UpperDigit(bytes[0] / 16), UpperDigit(bytes[0] % 16)];
      SameFront(front, rest, first, ToUpperHex(bytes[1..]));
      ByteOfDigits(bytes[0], high, low);
    }
  }

  lemma SameFront(a: Text, b: Text, c: Text, d: Text)
    requires |a| == 2 && |c| == 2
    ensures a + b == c + d <==> a[0] == c[0] && a[1] == c[1] && b == d
  {
    if a + b == c + d {
      assert (a + b)[0] == a[0] && (a + b)[1] == a[1] && (c + d)[0] == c[0] && (c + d)[1] == c[1];
      assert (a + b)[2..] == b && (c + d)[2..] == d;
    } else if a[0] == c[0] && a[1] == c[1] {
      assert a == c;
    }
  }

  lemma ByteOfDigits(byte: Byte, high: int, low: int)
    requires 0 <= high < 16 && 0 <= low < 16
    ensures UpperDigit(byte / 16) == UpperDigit(high) && UpperDigit(byte % 16) == UpperDigit(low) <==>
            byte == high * 16 + low
  {
    UpperDigitsDiffer();
  }

  /** Anything else at the front spells nothing. */
  lemma OddFirst(t: Text)
    requires t != [] && !IsBlank(t[0]) && !(|t| >= 2 && IsHexDigit(t[0]) && IsHexDigit(t[1]))
    ensures forall bytes :: !Spells(t, bytes)
  {
    hide Spells, IsBlank, IsHexDigit;
    forall bytes ensures !Spells(t, bytes) {
      if Spells(t, bytes) {
        SpellsPairs(t, bytes);
      }
    }
  }

  lemma SpellsPairs(t: Text, bytes: seq<Byte>)
    requires t != [] && !IsBlank(t[0]) && Spells(t, bytes)
    ensures |t| >= 2 && IsHexDigit(t[0]) && IsHexDigit(t[1])
  {
    var d := Dense(t);
    DigitsOnly(bytes);
    DenseOne(t[0]);
    assert t == [t[0]] + t[1..] && t[..1] == [t[0]];
    DenseAppend([t[0]], t[1..]);
    UpperDigits(t[0]);
    assert d[0] == t[0] && Upper(d)[0] == Upper([t[0]])[0];
    assert |d| % 2 == 0;
    assert !IsWhite(t[1]);
    UpperDigits(t[1]);
    assert t[1..] == [t[1]] + t[2..];
    DenseOne(t[1]);
    DenseAppend([t[1]], t[2..]);
    assert d[1] == t[1] && Upper(d)[1] == Upper([t[1]])[0];
  }

  lemma {:induction false} DigitsOnly(bytes: seq<Byte>)
    ensures forall i :: 0 <= i < |ToUpperHex(bytes)| ==> Digital(ToUpperHex(bytes)[i])
    ensures |ToUpperHex(bytes)| % 2 == 0
  {
    if bytes != [] {
      DigitsOnly(bytes[1..]);
      var t := ToUpperHex(bytes);
      var rest := ToUpperHex(bytes[1..]);
      assert t == [UpperDigit(bytes[0] / 16), UpperDigit(bytes[0] % 16)] + rest;
      forall i | 0 <= i < |t| ensures Digital(t[i]) {
        if i == 0 {
          assert UpperDigit(bytes[0] / 16) == t[0];
        } else if i == 1 {
          assert UpperDigit(bytes[0] % 16) == t[1];
        } else {
          assert t[i] == rest[i - 2];
        }
      }
    }
  }

  /**
   A line is accepted exactly if after the colon stand at least ten characters, evenly many, that spell a record
   with white space between pairs at most, whose length fits its count and whose bytes sum to zero.
   */
  lemma RecordExactly(line: Text)
    ensures forall r: Rec :: ParseRecord(line) == Record(r) <==>
              && |line| >= 11 && |line| % 2 == 1 && line[0] == 58 && Spells(line[1..], r)
              && Sum(r) % 256 == 0
    ensures ParseRecord(line).IndexFault? <==>
              |line| >= 11 && |line| % 2 == 1 && line[0] == 58 && Spells(line[1..], [])
  {
    if line != [] {
      FromHexExactly(line[1..]);
      hide FromHex, Spells, Sum;
      assert forall r: Rec :: FromHex(line[1..]) == Some(r) <==> Spells(line[1..], r);
    }
  }

  // ---------------------------------------------------------------- lines

  /** The ASCII line boundaries of `str.splitlines`. */
  predicate Breaks(c: Byte) { c in {10, 11, 12, 13, 28, 29, 30} }

  /** One boundary; CR and LF together are one. */
  predicate IsEnd(e: Text) { e == [13, 10] || (|e| == 1 && Breaks(e[0])) }

  function Glued(lines: seq<Text>, ends: seq<Text>): Text
    requires |lines| == |ends|
  {
    if lines == [] then [] else lines[0] + ends[0] + Glued(lines[1..], ends[1..])
  }

  /** These lines and boundaries are the text; the last line may lack its boundary if it is not empty. */
  ghost predicate Splits(t: Text, lines: seq<Text>, ends: seq<Text>)
    decreases |lines|
  {
    && |lines| == |ends| && t == Glued(lines, ends)
    && (lines != [] ==>
          && (forall k :: 0 <= k < |lines[0]| ==> !Breaks(lines[0][k]))
          && (if IsEnd(ends[0]) then ends[0] == [13] ==> !([10] <= Glued(lines[1..], ends[1..]))
              else |lines| == 1 && ends[0] == [] && lines[0] != [])
          && Splits(Glued(lines[1..], ends[1..]), lines[1..], ends[1..]))
  }

  /** What the front of such a text must be. */
  predicate FrontIs(line: Text, end: Text, tail: Text, last: bool)
  {
    && (forall k :: 0 <= k < |line| ==> !Breaks(line[k]))
    && if IsEnd(end) then end == [13] ==> !([10] <= tail) else last && end == [] && line != []
  }

  lemma SplitsFront(line: Text, end: Text, tail: Text, lines: seq<Text>, ends: seq<Text>)
    requires Splits(tail, lines, ends) && FrontIs(line, end, tail, lines == [])
    ensures Splits(line + end + tail, [line] + lines, [end] + ends)
  {
    assert ([line] + lines)[1..] == lines && ([end] + ends)[1..] == ends;
  }

  lemma FrontOf(t: Text, lines: seq<Text>, ends: seq<Text>) returns (tail: Text)
    requires Splits(t, lines, ends) && lines != []
    ensures |ends| == |lines| && t == lines[0] + ends[0] + tail && Splits(tail, lines[1..], ends[1..])
    ensures FrontIs(lines[0], ends[0], tail, |lines| == 1)
  {
    tail := Glued(lines[1..], ends[1..]);
  }

  /** A byte from 0x80 on anywhere makes the file invalid; no other byte does by itself. */
  lemma AsciiExactly(t: Text)
    ensures HexImage.IsAscii(t) <==> !exists i :: 0 <= i < |t| && t[i] >= 0x80
    ensures (exists i :: 0 <= i < |t| && t[i] >= 0x80) ==> !HexImage.Accepts(t) && !HexImage.Faults(t)
  {
  }

  lemma LineEndIs(line: Text, rest: Text)
    requires (forall k :: 0 <= k < |line| ==> !Breaks(line[k])) && (rest == [] || Breaks(rest[0]))
    ensures HexImage.LineEnd(line + rest) == |line|
  {
    var t := line + rest;
    assert forall k :: 0 <= k < |line| ==> t[k] == line[k];
    assert rest != [] ==> t[|line|] == rest[0];
  }

  /** The first line of a text and what is left of it. */
  lemma FirstLine(line: Text, end: Text, tail: Text)
    requires FrontIs(line, end, tail, tail == [])
    ensures HexImage.SplitLines(line + end + tail) == [line] + HexImage.SplitLines(tail)
  {
    var t := line + (end + tail);
    assert line + end + tail == t;
    LineEndIs(line, end + tail);
    assert t[..|line|] == line;
    if IsEnd(end) {
      assert t[|line|] == end[0];
      assert |end| == 2 ==> t[|line| + 1] == 10;
      assert |end| == 1 && tail != [] ==> t[|line| + 1] == tail[0];
      assert t[|line| + |end|..] == tail;
    } else {
      assert t == line && HexImage.SplitLines(tail) == [];
    }
  }

  lemma {:induction false} LinesExactly(t: Text) returns (ends: seq<Text>)
    ensures Splits(t, HexImage.SplitLines(t), ends)
    decreases |t|
  {
    if t == [] {
      ends := [];
    } else {
      var line, end, tail := Front(t);
      ends := LinesExactly(tail);
      FirstLine(line, end, tail);
      SplitsFront(line, end, tail, HexImage.SplitLines(tail), ends);
      ends := [end] + ends;
    }
  }

  lemma Front(t: Text) returns (line: Text, end: Text, tail: Text)
    requires t != []
    ensures t == line + end + tail && FrontIs(line, end, tail, tail == []) && |tail| < |t|
    ensures tail == [] <==> HexImage.SplitLines(tail) == []
  {
    var e := HexImage.LineEnd(t);
    var next := if e == |t| then e else if t[e] == 13 && e + 1 < |t| && t[e + 1] == 10 then e + 2 else e + 1;
    line, end, tail := t[..e], t[e..next], t[next..];
    assert next == e + 1 ==> end == [t[e]];
    assert next == e + 2 ==> end == [13, 10];
  }

  /** No other lines do. */
  lemma {:induction false} LinesAreOnly(t: Text, lines: seq<Text>, ends: seq<Text>)
    requires Splits(t, lines, ends)
    ensures lines == HexImage.SplitLines(t)
    decreases |lines|
  {
    if lines != [] {
      var tail := FrontOf(t, lines, ends);
      LinesAreOnly(tail, lines[1..], ends[1..]);
      assert |lines| == 1 ==> tail == [];
      FirstLine(lines[0], ends[0], tail);
      assert lines == [lines[0]] + lines[1..];
    }
  }
}

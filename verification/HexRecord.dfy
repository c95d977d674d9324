/**
 One line of an Intel HEX file: the admission of cul868_flasher/app/hexfile.py:165-179
 and the encoder of tests/helpers.py:21-26.

 Characters are octets. `bytes.fromhex` skips blanks between byte pairs, and the model
 keeps that, with the one IndexError it leads to.
 */
module HexRecord {
  import opened Common

  type Text = seq<Byte>

  const COLON: Byte := 58

  /** The shape every accepted record has: count, address (2), type, payload, checksum. */
  type Rec = r: seq<Byte> | |r| >= 5 && |r| == r[0] as int + 5 witness [0, 0, 0, 1, 255]

  datatype RecordResult = Record(bytes: Rec) | HexFileError | IndexFault

  predicate IsBlank(c: Byte) { c == 32 || 9 <= c <= 13 }

  predicate IsHexDigit(c: Byte) { 48 <= c <= 57 || 65 <= c <= 70 || 97 <= c <= 102 }

  function DigitValue(c: Byte): (v: int)
    requires IsHexDigit(c)
    ensures 0 <= v < 16
  {
    if c <= 57 then c - 48 else if c <= 70 then c - 55 else c - 87
  }

  function UpperDigit(v: int): Byte
    requires 0 <= v < 16
  {
    if v < 10 then 48 + v else 55 + v
  }

  /** ASCII upper case, as `bytes.hex().upper()` and a comparison up to letter case need it. */
  function Upper(t: Text): (u: Text)
    ensures |u| == |t|
  {
    seq(|t|, i requires 0 <= i < |t| => if 97 <= t[i] <= 122 then t[i] - 32 else t[i])
  }

  /** `bytes.fromhex`: blanks may stand between pairs, never inside one. */
  function FromHex(t: Text): (r: Option<seq<Byte>>)
    decreases |t|
  {
    if t == [] then Some([])
    else if IsBlank(t[0]) then FromHex(t[1..])
    else if |t| >= 2 && IsHexDigit(t[0]) && IsHexDigit(t[1]) then
      match FromHex(t[2..])
      case None => None
      case Some(rest) => Some([DigitValue(t[0]) * 16 + DigitValue(t[1])] + rest)
    else None
  }

  function ToUpperHex(bytes: seq<Byte>): (t: Text)
    ensures |t| == 2 * |bytes|
  {
    if bytes == [] then []
    else [UpperDigit(bytes[0] / 16), UpperDigit(bytes[0] % 16)] + ToUpperHex(bytes[1..])
  }

  function Sum(bytes: seq<Byte>): (s: int)
    ensures s >= 0
  {
    if bytes == [] then 0 else bytes[0] as int + Sum(bytes[1..])
  }

  function ParseRecord(line: Text): RecordResult
  {
    if line == [] || line[0] != COLON then HexFileError
    else
      var encoded := line[1..];
      if |encoded| < 10 || |encoded| % 2 != 0 then HexFileError
      else
        match FromHex(encoded)
        case None => HexFileError
        case Some(record) =>
          if record == [] then IndexFault
          else if |record| != record[0] as int + 5 then HexFileError
          else if Sum(record) % 256 != 0 then HexFileError
          else Record(record)
  }

  function Checksum(fields: seq<Byte>): Byte { (-Sum(fields)) % 256 }

  function Fields(address: int, kind: Byte, data: seq<Byte>): seq<Byte>
    requires 0 <= address < 0x1_0000 && |data| < 256
  {
    [|data|, address / 256, address % 256, kind] + data
  }

  /** The encoder the repository's tests use to build records. */
  function EncodeRecord(address: int, kind: Byte, data: seq<Byte>): Text
    requires 0 <= address < 0x1_0000 && |data| < 256
  {
    var fields := Fields(address, kind, data);
    [COLON] + ToUpperHex(fields + [Checksum(fields)])
  }

  function Address(record: seq<Byte>): (a: int)
    requires |record| >= 5
    ensures 0 <= a < 0x1_0000
  {
    record[1] as int * 256 + record[2] as int
  }

  function Payload(record: seq<Byte>): seq<Byte>
    requires |record| >= 5
  {
    record[4..|record| - 1]
  }

  predicate BlankFree(t: Text) { forall i :: 0 <= i < |t| ==> !IsBlank(t[i]) }

  lemma {:induction false} SumAppend(a: seq<Byte>, b: seq<Byte>)
    ensures Sum(a + b) == Sum(a) + Sum(b)
  {
    if a == [] {
      assert a + b == b;
    } else {
      assert (a + b)[1..] == a[1..] + b;
      SumAppend(a[1..], b);
    }
  }

  lemma {:induction false} FromHexInvertsToUpperHex(bytes: seq<Byte>)
    ensures FromHex(ToUpperHex(bytes)) == Some(bytes)
  {
    if bytes != [] {
      FromHexInvertsToUpperHex(bytes[1..]);
      var t := ToUpperHex(bytes);
      assert t[2..] == ToUpperHex(bytes[1..]);
      assert !IsBlank(t[0]) && IsHexDigit(t[0]) && IsHexDigit(t[1]);
      assert DigitValue(t[0]) == bytes[0] / 16 && DigitValue(t[1]) == bytes[0] % 16;
      assert [bytes[0]] + bytes[1..] == bytes;
    }
  }

  /** Parsing inverts the encoder for every address, type and payload of up to 255 bytes. */
  lemma {:induction false} EncodeThenParse(address: int, kind: Byte, data: seq<Byte>)
    requires 0 <= address < 0x1_0000 && |data| < 256
    ensures var r := ParseRecord(EncodeRecord(address, kind, data));
            r.Record? && |r.bytes| == |data| + 5 && r.bytes[0] == |data| && r.bytes[3] == kind &&
            Address(r.bytes) == address && Payload(r.bytes) == data
  {
    var fields := Fields(address, kind, data);
    var record := fields + [Checksum(fields)];
    var line := EncodeRecord(address, kind, data);
    assert line[1..] == ToUpperHex(record);
    FromHexInvertsToUpperHex(record);
    SumAppend(fields, [Checksum(fields)]);
    assert Sum([Checksum(fields)]) == Checksum(fields) + Sum([]);
    assert Payload(record) == data;
  }

  lemma {:induction false} ToUpperHexInvertsFromHex(t: Text)
    requires BlankFree(t) && FromHex(t).Some?
    ensures ToUpperHex(FromHex(t).value) == Upper(t)
    decreases |t|
  {
    if t != [] {
      assert !IsBlank(t[0]);
      assert BlankFree(t[2..]);
      ToUpperHexInvertsFromHex(t[2..]);
      var bytes := FromHex(t).value;
      assert bytes[1..] == FromHex(t[2..]).value;
      assert bytes[0] / 16 == DigitValue(t[0]) && bytes[0] % 16 == DigitValue(t[1]);
      assert Upper(t) == Upper(t[..2]) + Upper(t[2..]);
    }
  }

  lemma NegatedModulo(s: int, last: Byte)
    requires (s + last) % 256 == 0
    ensures (-s) % 256 == last
  {
    assert -s == last - 256 * ((s + last) / 256);
  }

  lemma FieldsOfRecord(r: seq<Byte>)
    requires |r| >= 5 && |r| == r[0] as int + 5
    ensures |Payload(r)| < 256
    ensures Fields(Address(r), r[3], Payload(r)) == r[..|r| - 1]
  {
    var high, low := r[1] as int, r[2] as int;
    assert (high * 256 + low) / 256 == high && (high * 256 + low) % 256 == low;
    assert r[..|r| - 1] == r[..4] + Payload(r);
    assert r[..4] == [r[0], r[1], r[2], r[3]];
  }

  /** The checksum of an accepted record is the one the encoder computes. */
  lemma AcceptedChecksum(r: seq<Byte>)
    requires |r| >= 5 && Sum(r) % 256 == 0
    ensures r == r[..|r| - 1] + [Checksum(r[..|r| - 1])]
  {
    var fields, last := r[..|r| - 1], r[|r| - 1];
    assert r == fields + [last];
    SumAppend(fields, [last]);
    assert Sum([last]) == last as int + Sum([]);
    NegatedModulo(Sum(fields), last);
  }

  /** Re-encoding an accepted line without blanks gives that line back, up to letter case. */
  lemma ParseThenEncode(line: Text)
    requires BlankFree(line) && ParseRecord(line).Record?
    ensures var r := ParseRecord(line).bytes;
            |r| >= 5 && |Payload(r)| < 256 && EncodeRecord(Address(r), r[3], Payload(r)) == Upper(line)
  {
    hide Sum;
    var r := ParseRecord(line).bytes;
    FieldsOfRecord(r);
    AcceptedChecksum(r);
    assert EncodeRecord(Address(r), r[3], Payload(r)) == [COLON] + ToUpperHex(r);
    assert forall i :: 0 <= i < |line| - 1 ==> line[1..][i] == line[i + 1];
    ToUpperHexInvertsFromHex(line[1..]);
    assert Upper(line) == [COLON] + Upper(line[1..]);
  }

  lemma {:induction false} SumUpdate(bytes: seq<Byte>, i: nat, b: Byte)
    requires i < |bytes|
    ensures Sum(bytes[i := b]) == Sum(bytes) - bytes[i] + b
  {
    SumAppend(bytes[..i], [bytes[i]] + bytes[i + 1..]);
    SumAppend(bytes[..i], [b] + bytes[i + 1..]);
    assert bytes == bytes[..i] + ([bytes[i]] + bytes[i + 1..]);
    assert bytes[i := b] == bytes[..i] + ([b] + bytes[i + 1..]);
    assert ([bytes[i]] + bytes[i + 1..])[1..] == ([b] + bytes[i + 1..])[1..];
  }

  /** No single corrupted byte of an accepted record goes unnoticed, however it is spelled. */
  lemma {:induction false} SingleByteChangeIsRejected(line: Text, i: nat, b: Byte, corrupted: Text)
    requires ParseRecord(line).Record?
    requires i < |ParseRecord(line).bytes| && b != ParseRecord(line).bytes[i]
    requires corrupted != [] && FromHex(corrupted[1..]) == Some(ParseRecord(line).bytes[i := b])
    ensures ParseRecord(corrupted) == HexFileError
  {
    hide Sum, FromHex;
    SumUpdate(ParseRecord(line).bytes, i, b);
  }

  lemma {:induction false} FromHexEmpty(t: Text)
    ensures FromHex(t) == Some([]) <==> forall i :: 0 <= i < |t| ==> IsBlank(t[i])
    decreases |t|
  {
    if t != [] && IsBlank(t[0]) {
      FromHexEmpty(t[1..]);
      assert forall i :: 0 < i < |t| ==> t[i] == t[1..][i - 1];
      assert forall i :: 0 <= i < |t| - 1 ==> t[1..][i] == t[i + 1];
    }
  }

  /** The one line shape that escapes HexFileError: a colon and at least ten blanks, evenly many. */
  lemma IndexFaultExactly(line: Text)
    ensures ParseRecord(line).IndexFault? <==>
            |line| >= 11 && |line| % 2 == 1 && line[0] == COLON && forall i :: 1 <= i < |line| ==> IsBlank(line[i])
  {
    if line != [] {
      FromHexEmpty(line[1..]);
      assert forall i :: 1 <= i < |line| ==> line[i] == line[1..][i - 1];
      assert forall i :: 0 <= i < |line| - 1 ==> line[1..][i] == line[i + 1];
    }
  }
}

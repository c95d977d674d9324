/**
 The Intel HEX admission parser, cul868_flasher/app/hexfile.py:89-162.

 The one-pass loop with its bitmap and running bounds is proved against a declarative
 reading of the Intel Hexadecimal Object File Format Specification, Revision A (1988):
 a file is a list of records, a data record covers an interval of linear addresses, and
 the upper 16 address bits come from the nearest extended linear address record before it.
 */
module HexImage {
  import opened Common
  import opened HexRecord

  const FLASH_BYTES := 0x7000

  /** `Fault` is the IndexError that escapes for a line of blanks; see HexRecord.IndexFaultExactly. */
  datatype Outcome =
    | Image(records: nat, dataBytes: nat, lowest: int, highest: int)
    | Rejected
    | Fault

  // ---------------------------------------------------------------- lines

  predicate IsAscii(source: Text) { forall i :: 0 <= i < |source| ==> source[i] < 128 }

  /** The ASCII line boundaries of `str.splitlines`. */
  predicate IsLineBreak(c: Byte) { 10 <= c <= 13 || 28 <= c <= 30 }

  function LineEnd(t: Text): (e: nat)
    ensures e <= |t| && (forall i :: 0 <= i < e ==> !IsLineBreak(t[i])) && (e < |t| ==> IsLineBreak(t[e]))
  {
    if t == [] || IsLineBreak(t[0]) then 0 else 1 + LineEnd(t[1..])
  }

  function SplitLines(t: Text): seq<Text>
    decreases |t|
  {
    var e := LineEnd(t);
    if t == [] then []
    else if e == |t| then [t]
    else
      var next := if t[e] == 13 && e + 1 < |t| && t[e + 1] == 10 then e + 2 else e + 1;
      [t[..e]] + SplitLines(t[next..])
  }

  // ---------------------------------------------------------------- the declarative image

  function Kind(r: Rec): Byte { r[3] }

  function Count(r: Rec): int { r[0] }

  predicate Formed(r: Rec)
  {
    match Kind(r)
    case 0 => Count(r) > 0
    case 1 => Count(r) == 0 && Address(r) == 0
    case 4 => Count(r) == 2 && Address(r) == 0
    case _ => false
  }

  /** Upper 16 address bits in force just before record `i`. */
  function UpperBefore(recs: seq<Rec>, i: nat): (u: int)
    requires i <= |recs|
    ensures 0 <= u < 0x1_0000
  {
    if i == 0 then 0
    else if Kind(recs[i - 1]) == 4 && Count(recs[i - 1]) == 2 then
      Payload(recs[i - 1])[0] as int * 256 + Payload(recs[i - 1])[1] as int
    else UpperBefore(recs, i - 1)
  }

  function Start(recs: seq<Rec>, i: nat): (a: int)
    requires i < |recs|
    ensures a >= 0
  {
    UpperBefore(recs, i) * 0x1_0000 + Address(recs[i])
  }

  predicate Covers(recs: seq<Rec>, i: nat, a: int)
  {
    i < |recs| && Kind(recs[i]) == 0 && Start(recs, i) <= a < Start(recs, i) + Count(recs[i])
  }

  ghost predicate IsCovered(recs: seq<Rec>, a: int) { exists i: nat :: Covers(recs, i, a) }

  ghost predicate InFlash(recs: seq<Rec>)
  {
    forall i: nat {:trigger Start(recs, i)} :: i < |recs| && Kind(recs[i]) == 0 ==>
      Start(recs, i) + Count(recs[i]) <= FLASH_BYTES
  }

  ghost predicate Disjoint(recs: seq<Rec>)
  {
    forall i: nat, j: nat, a :: i < j && Covers(recs, i, a) ==> !Covers(recs, j, a)
  }

  ghost predicate Sound(recs: seq<Rec>)
  {
    && (forall i :: 0 <= i < |recs| ==> Formed(recs[i]))
    && InFlash(recs)
    && Disjoint(recs)
  }

  ghost predicate IsImage(recs: seq<Rec>)
  {
    && recs != []
    && Sound(recs)
    && (forall i :: 0 <= i < |recs| ==> (Kind(recs[i]) == 1 <==> i == |recs| - 1))
    && exists i: nat :: Covers(recs, i, 0)
  }

  ghost function Covered(recs: seq<Rec>): set<int>
  {
    set a | 0 <= a < FLASH_BYTES && IsCovered(recs, a)
  }

  ghost function ByteAt(recs: seq<Rec>, a: int): Byte
    requires a in Covered(recs)
  {
    var i: nat :| Covers(recs, i, a);
    Payload(recs[i])[a - Start(recs, i)]
  }

  /** Flash contents described by the records: linear address to octet. */
  ghost function MemoryImage(recs: seq<Rec>): map<int, Byte>
  {
    map a | a in Covered(recs) :: ByteAt(recs, a)
  }

  /** What `_parse_record` makes of each line. */
  function Parsed(lines: seq<Text>): (ps: seq<RecordResult>)
    ensures |ps| == |lines|
  {
    seq(|lines|, i requires 0 <= i < |lines| => ParseRecord(lines[i]))
  }

  predicate Decodes(ps: seq<RecordResult>, n: nat)
  {
    n <= |ps| && forall i :: 0 <= i < n ==> ps[i].Record?
  }

  /** The records of the first `n` lines. */
  function Records(ps: seq<RecordResult>, n: nat): (recs: seq<Rec>)
    requires Decodes(ps, n)
    ensures |recs| == n
  {
    seq(n, i requires 0 <= i < n => ps[i].bytes)
  }

  ghost predicate Acceptable(ps: seq<RecordResult>)
  {
    Decodes(ps, |ps|) && IsImage(Records(ps, |ps|))
  }

  ghost predicate NoEof(recs: seq<Rec>) { forall i :: 0 <= i < |recs| ==> Kind(recs[i]) != 1 }

  /** Line `n` is a line of blanks, and everything before it is still the start of an image. */
  ghost predicate FaultsAt(ps: seq<RecordResult>, n: nat)
  {
    && n < |ps| && ps[n].IndexFault?
    && Decodes(ps, n) && Sound(Records(ps, n)) && NoEof(Records(ps, n))
  }

  ghost predicate Accepts(source: Text)
  {
    IsAscii(source) && Acceptable(Parsed(SplitLines(source)))
  }

  ghost predicate Faults(source: Text)
  {
    IsAscii(source) && exists n: nat :: FaultsAt(Parsed(SplitLines(source)), n)
  }

  // ---------------------------------------------------------------- prefixes and appending

  lemma {:induction false} UpperBeforePrefix(recs: seq<Rec>, n: nat, i: nat)
    requires i <= n <= |recs|
    ensures UpperBefore(recs[..n], i) == UpperBefore(recs, i)
  {
    if i > 0 {
      UpperBeforePrefix(recs, n, i - 1);
    }
  }

  lemma CoversPrefix(recs: seq<Rec>, n: nat)
    requires n <= |recs|
    ensures forall i: nat :: i < n ==> Start(recs[..n], i) == Start(recs, i)
    ensures forall i: nat, a :: Covers(recs[..n], i, a) <==> i < n && Covers(recs, i, a)
  {
    forall i: nat | i < n ensures Start(recs[..n], i) == Start(recs, i) {
      UpperBeforePrefix(recs, n, i);
    }
  }

  lemma SoundPrefix(recs: seq<Rec>, n: nat)
    requires n <= |recs| && Sound(recs)
    ensures Sound(recs[..n])
  {
    CoversPrefix(recs, n);
  }

  predicate Within(start: int, a: int, end: int) { start <= a < end }

  ghost function Interval(start: int, end: int): set<int> { set a | start <= a < end && Within(start, a, end) }

  /** Linear addresses record `r` would cover, appended to `recs`. */
  function NextStart(recs: seq<Rec>, r: Rec): (a: int)
    ensures a >= 0
  {
    UpperBefore(recs, |recs|) * 0x1_0000 + Address(r)
  }

  ghost function NextRange(recs: seq<Rec>, r: Rec): set<int>
  {
    if Kind(r) == 0 then Interval(NextStart(recs, r), NextStart(recs, r) + Count(r)) else {}
  }

  ghost predicate Admits(recs: seq<Rec>, r: Rec)
  {
    && Formed(r)
    && (Kind(r) == 0 ==> NextStart(recs, r) + Count(r) <= FLASH_BYTES)
    && NextRange(recs, r) !! Covered(recs)
  }

  lemma AppendStart(recs: seq<Rec>, r: Rec)
    ensures var all := recs + [r];
            && (forall i: nat, a :: i < |recs| ==> (Covers(all, i, a) <==> Covers(recs, i, a)))
            && (forall a :: Covers(all, |recs|, a) <==> a in NextRange(recs, r))
            && (forall i: nat :: i < |recs| ==> Start(all, i) == Start(recs, i))
            && Start(all, |recs|) == NextStart(recs, r)
  {
    var all := recs + [r];
    assert all[..|recs|] == recs;
    CoversPrefix(all, |recs|);
    UpperBeforePrefix(all, |recs|, |recs|);
  }

  lemma AppendCovered(recs: seq<Rec>, r: Rec)
    requires Sound(recs) && Admits(recs, r)
    ensures Covered(recs + [r]) == Covered(recs) + NextRange(recs, r)
  {
    var all := recs + [r];
    AppendStart(recs, r);
    forall a | a in Covered(recs) + NextRange(recs, r) ensures a in Covered(all) {
      if a in Covered(recs) {
        var i: nat :| Covers(recs, i, a);
        assert Covers(all, i, a);
      } else {
        assert Covers(all, |recs|, a);
      }
    }
  }

  lemma AppendSound(recs: seq<Rec>, r: Rec)
    requires Sound(recs)
    ensures Sound(recs + [r]) <==> Admits(recs, r)
  {
    var all, n := recs + [r], |recs|;
    AppendStart(recs, r);
    assert all[n] == r;
    forall a | a in NextRange(recs, r) && a in Covered(recs) ensures !Disjoint(all) {
      var i: nat :| Covers(recs, i, a);
      assert Covers(all, i, a) && Covers(all, n, a);
    }
    if Admits(recs, r) {
      forall i: nat, j: nat, a | i < j && Covers(all, i, a) ensures !Covers(all, j, a) {
        assert Covers(recs, i, a) && InFlash(recs) ==> a in Covered(recs);
      }
      assert Sound(all);
    }
  }

  lemma RecordsPrefix(ps: seq<RecordResult>, n: nat, m: nat)
    requires n <= m && Decodes(ps, m)
    ensures Decodes(ps, n) && Records(ps, n) == Records(ps, m)[..n]
  {
  }

  /** The lines parsed so far settle that the file is neither an image nor a fault. */
  ghost predicate Hopeless(ps: seq<RecordResult>)
  {
    !Acceptable(ps) && forall m: nat :: !FaultsAt(ps, m)
  }

  lemma UndecodedLine(ps: seq<RecordResult>, n: nat)
    requires n < |ps| && Decodes(ps, n) && ps[n].HexFileError?
    ensures Hopeless(ps)
  {
  }

  /** A failure found in the first `n` records settles the verdict on the whole file. */
  lemma UnsoundPrefix(ps: seq<RecordResult>, n: nat)
    requires Decodes(ps, n) && !Sound(Records(ps, n))
    ensures Hopeless(ps)
  {
    forall m: nat | n <= m && Decodes(ps, m) ensures !Sound(Records(ps, m)) {
      RecordsPrefix(ps, n, m);
      if Sound(Records(ps, m)) {
        SoundPrefix(Records(ps, m), n);
      }
    }
    forall m: nat ensures !FaultsAt(ps, m) {
      if m < n {
        assert ps[m].Record?;
      }
    }
  }

  lemma EofIsLast(ps: seq<RecordResult>, n: nat)
    requires 0 < n < |ps| && Decodes(ps, n) && Kind(Records(ps, n)[n - 1]) == 1
    ensures Hopeless(ps)
  {
    forall m: nat | n <= m && Decodes(ps, m) ensures Records(ps, m)[n - 1] == Records(ps, n)[n - 1] {
      RecordsPrefix(ps, n, m);
    }
    forall m: nat ensures !FaultsAt(ps, m) {
      if m < n {
        assert ps[m].Record?;
      }
    }
  }

  // ---------------------------------------------------------------- the parser

  /** Running minimum and maximum of the loop, `None` and -1 standing for "no data yet". */
  ghost predicate Bounds(covered: set<int>, lowest: Option<int>, highest: int)
  {
    && (lowest.None? <==> covered == {})
    && (lowest.Some? ==> lowest.value in covered && forall a :: a in covered ==> lowest.value <= a)
    && highest >= -1
    && (highest == -1 <==> covered == {})
    && (highest >= 0 ==> highest in covered)
    && (forall a :: a in covered ==> 0 <= a <= highest)
  }

  ghost predicate Marks(occupied: seq<Byte>, covered: set<int>)
  {
    && (forall a :: 0 <= a < |occupied| ==> (occupied[a] != 0 <==> a in covered))
    && (forall a :: a in covered ==> 0 <= a < |occupied|)
  }

  /** The inner loop: claim each address of a data record, refusing one that is taken. */
  method MarkRange(occupied: array<Byte>, start: int, end: int, ghost covered: set<int>) returns (free: bool)
    requires 0 <= start <= end <= occupied.Length && Marks(occupied[..], covered)
    modifies occupied
    ensures free <==> Interval(start, end) !! covered
    ensures free ==> var range := Interval(start, end);
                       Marks(occupied[..], covered + range) && |covered + range| == |covered| + (end - start)
  {
    ghost var marked := covered;
    for offset := start to end
      invariant forall a :: a in marked <==> a in covered || start <= a < offset
      invariant Marks(occupied[..], marked)
      invariant forall a :: start <= a < offset ==> a !in covered
      invariant |marked| == |covered| + (offset - start)
    {
      if occupied[offset] != 0 {
        assert offset in Interval(start, end) && offset in covered;
        return false;
      }
      occupied[offset] := 1;
      marked := marked + {offset};
    }
    assert marked == covered + Interval(start, end);
    return true;
  }

  /** The bitmap, the byte count and the bounds all describe the same set of addresses. */
  ghost predicate Tally(occupied: array<Byte>, dataBytes: int, lowest: Option<int>, highest: int, covered: set<int>)
    reads occupied
  {
    Marks(occupied[..], covered) && dataBytes == |covered| && Bounds(covered, lowest, highest)
  }

  lemma BoundsStep(covered: set<int>, lowest: Option<int>, highest: int, start: int, end: int)
    requires Bounds(covered, lowest, highest) && 0 <= start < end
    ensures Bounds(covered + Interval(start, end),
                   Some(if lowest.None? then start else Min(lowest.value, start)), Max(highest, end - 1))
  {
    var all := covered + Interval(start, end);
    assert start in all && end - 1 in all;
  }

  /** Addresses taken after a record of data starting at `start`, or after any other record. */
  ghost function Taken(record: Rec, start: int, covered: set<int>): set<int>
  {
    if Kind(record) == 0 then covered + Interval(start, start + Count(record)) else covered
  }

  ghost predicate Fits(record: Rec, start: int, covered: set<int>)
  {
    && Formed(record)
    && (Kind(record) == 0 ==>
          start + Count(record) <= FLASH_BYTES && Interval(start, start + Count(record)) !! covered)
  }

  /** The data-record branch of the loop. */
  method PlaceData(occupied: array<Byte>, dataBytes: int, lowest: Option<int>, highest: int,
                   record: Rec, start: int, ghost covered: set<int>)
    returns (placed: bool, dataBytes': int, lowest': Option<int>, highest': int)
    requires occupied.Length == FLASH_BYTES && start >= 0 && Kind(record) == 0
    requires Tally(occupied, dataBytes, lowest, highest, covered)
    modifies occupied
    ensures placed <==> Fits(record, start, covered)
    ensures placed ==> Tally(occupied, dataBytes', lowest', highest', Taken(record, start, covered))
  {
    hide Bounds, Marks, Interval;
    var byteCount := Count(record);
    dataBytes', lowest', highest' := dataBytes, lowest, highest;
    if byteCount == 0 {
      return false, dataBytes', lowest', highest';
    }
    var end := start + byteCount;
    if start < 0 || end > FLASH_BYTES {
      return false, dataBytes', lowest', highest';
    }
    placed := MarkRange(occupied, start, end, covered);
    if placed {
      BoundsStep(covered, lowest, highest, start, end);
      assert Taken(record, start, covered) == covered + Interval(start, end);
      dataBytes' := dataBytes + byteCount;
      lowest' := Some(if lowest.None? then start else Min(lowest.value, start));
      highest' := Max(highest, end - 1);
    }
  }

  /** What the loop knows after the first `n` lines. */
  ghost predicate Progress(ps: seq<RecordResult>, n: nat, upper: int, sawEof: bool)
  {
    && Decodes(ps, n)
    && var recs := Records(ps, n);
    && Sound(recs)
    && upper == UpperBefore(recs, n)
    && (sawEof <==> n > 0 && Kind(recs[n - 1]) == 1)
    && (n > 0 ==> NoEof(recs[..n - 1]))
  }

  ghost function Seen(ps: seq<RecordResult>, n: nat): set<int>
    requires Decodes(ps, n)
  {
    Covered(Records(ps, n))
  }

  function NextUpper(record: Rec, upper: int): int
  {
    if Kind(record) == 4 && Count(record) == 2 then
      Payload(record)[0] as int * 256 + Payload(record)[1] as int
    else upper
  }

  /** Where the payload of `record` goes after the last extended address `upper`. */
  function AbsoluteAddress(upper: int, record: Rec): (start: int)
    ensures upper >= 0 ==> start >= 0
  {
    upper * 0x1_0000 + Address(record)
  }

  lemma ProgressStep(ps: seq<RecordResult>, n: nat, upper: int, record: Rec, covered: set<int>)
    requires Progress(ps, n, upper, false) && n < |ps| && ps[n] == Record(record) && covered == Seen(ps, n)
    ensures var start := AbsoluteAddress(upper, record);
            && (!Fits(record, start, covered) ==> Hopeless(ps))
            && (Fits(record, start, covered) ==>
                  && Progress(ps, n + 1, NextUpper(record, upper), Kind(record) == 1)
                  && Seen(ps, n + 1) == Taken(record, start, covered))
  {
    var recs, all := Records(ps, n), Records(ps, n + 1);
    assert all == recs + [record];
    AppendSound(recs, record);
    assert NextStart(recs, record) == AbsoluteAddress(upper, record);
    assert Admits(recs, record) <==> Fits(record, AbsoluteAddress(upper, record), covered);
    if Admits(recs, record) {
      AppendCovered(recs, record);
      assert all[..n] == recs;
      UpperBeforePrefix(all, n, n);
    } else {
      UnsoundPrefix(ps, n + 1);
    }
  }

  lemma BlankLine(ps: seq<RecordResult>, n: nat, upper: int)
    requires Progress(ps, n, upper, false) && n < |ps| && ps[n].IndexFault?
    ensures FaultsAt(ps, n) && !Acceptable(ps)
  {
    var recs := Records(ps, n);
    assert forall i :: 0 <= i < n - 1 ==> recs[i] == recs[..n - 1][i];
  }

  lemma Finished(ps: seq<RecordResult>, upper: int, sawEof: bool)
    requires Progress(ps, |ps|, upper, sawEof)
    ensures forall m: nat :: !FaultsAt(ps, m)
    ensures Acceptable(ps) <==> sawEof && 0 in Seen(ps, |ps|)
  {
    var recs := Records(ps, |ps|);
    assert 0 in Covered(recs) <==> IsCovered(recs, 0);
    assert sawEof ==> forall i :: 0 <= i < |recs| - 1 ==> recs[i] == recs[..|recs| - 1][i];
  }

  method ParseHex(source: Text) returns (outcome: Outcome)
    ensures outcome.Image? <==> Accepts(source)
    ensures outcome.Fault? <==> Faults(source)
    ensures outcome.Image? ==>
              var ps := Parsed(SplitLines(source));
              var covered := Seen(ps, |ps|);
              && outcome.records == |ps|
              && outcome.dataBytes == |covered|
              && outcome.lowest == 0
              && outcome.highest in covered && forall a :: a in covered ==> a <= outcome.highest
  {
    if exists i :: 0 <= i < |source| && source[i] >= 128 {
      return Rejected;
    }
    var lines := SplitLines(source);
    if lines == [] {
      return Rejected;
    }
    outcome := ParseLines(lines, Parsed(lines));
  }

  /** The loop's local variables other than the bitmap. */
  datatype Scan = Scan(records: nat, upper: int, dataBytes: int, lowest: Option<int>, highest: int, sawEof: bool)

  lemma OnlyDataTakes(record: Rec, start: int, covered: set<int>)
    ensures Kind(record) != 0 ==>
              (Fits(record, start, covered) <==> Formed(record)) && Taken(record, start, covered) == covered
    ensures Kind(record) == 0 ==> forall upper :: NextUpper(record, upper) == upper
  {
  }

  /** The type dispatch of the loop body, for a line that decoded. */
  method ApplyRecord(record: Rec, occupied: array<Byte>, scan: Scan, ghost covered: set<int>)
    returns (ok: bool, scan': Scan)
    requires occupied.Length == FLASH_BYTES && !scan.sawEof && scan.upper >= 0
    requires Tally(occupied, scan.dataBytes, scan.lowest, scan.highest, covered)
    modifies occupied
    ensures var start := AbsoluteAddress(scan.upper, record);
            && (ok <==> Fits(record, start, covered))
            && (ok ==> Tally(occupied, scan'.dataBytes, scan'.lowest, scan'.highest, Taken(record, start, covered)))
    ensures ok ==> scan'.records == scan.records + 1 && scan'.upper == NextUpper(record, scan.upper)
                   && scan'.sawEof == (Kind(record) == 1)
  {
    OnlyDataTakes(record, AbsoluteAddress(scan.upper, record), covered);
    hide Tally, Fits, Taken, Formed, Payload, AbsoluteAddress;
    scan' := scan.(records := scan.records + 1);
    if Kind(record) == 0 {
      var start := AbsoluteAddress(scan.upper, record);
      var dataBytes, lowest, highest;
      ok, dataBytes, lowest, highest :=
        PlaceData(occupied, scan.dataBytes, scan.lowest, scan.highest, record, start, covered);
      scan' := scan'.(dataBytes := dataBytes, lowest := lowest, highest := highest);
    } else {
      ok, scan' := ApplyControl(record, scan');
    }
  }

  /** Records without data: end of file, extended linear address, anything else. */
  method ApplyControl(record: Rec, scan: Scan) returns (ok: bool, scan': Scan)
    requires Kind(record) != 0 && !scan.sawEof
    ensures ok <==> Formed(record)
    ensures ok ==> scan' == scan.(upper := NextUpper(record, scan.upper), sawEof := Kind(record) == 1)
  {
    var byteCount, address, payload := Count(record), Address(record), Payload(record);
    scan' := scan;
    if Kind(record) == 1 {
      ok := byteCount == 0 && address == 0;
      scan' := scan.(sawEof := true);
    } else if Kind(record) == 4 {
      ok := byteCount == 2 && address == 0;
      if ok {
        scan' := scan.(upper := payload[0] as int * 256 + payload[1] as int);
      }
    } else {
      ok := false;
    }
  }

  method ParseLines(lines: seq<Text>, ghost ps: seq<RecordResult>) returns (outcome: Outcome)
    requires ps == Parsed(lines) && lines != []
    ensures outcome.Image? <==> Acceptable(ps)
    ensures outcome.Fault? <==> exists n: nat :: FaultsAt(ps, n)
    ensures outcome.Image? ==>
              var covered := Seen(ps, |ps|);
              && outcome == Image(|ps|, |covered|, 0, outcome.highest)
              && outcome.highest in covered && forall a :: a in covered ==> a <= outcome.highest
  {
    var occupied := new Byte[FLASH_BYTES](_ => 0);
    var scan := Scan(0, 0, 0, None, -1, false);
    ghost var covered: set<int> := {};
    assert Seen(ps, 0) == covered;
    assert Tally(occupied, 0, None, -1, covered);
    assert Progress(ps, 0, 0, false);
    hide Tally, Seen, Fits, Taken, Formed, Acceptable, FaultsAt, ParseRecord, NextUpper, NextStart, AbsoluteAddress;
    for n := 0 to |lines|
      invariant scan.records == n
      invariant Progress(ps, n, scan.upper, scan.sawEof)
      invariant covered == Seen(ps, n)
      invariant Tally(occupied, scan.dataBytes, scan.lowest, scan.highest, covered)
    {
      if scan.sawEof {
        EofIsLast(ps, n);
        return Rejected;
      }
      var parsed := ParseRecord(lines[n]);
      assert parsed == ps[n];
      match parsed {
        case IndexFault =>
          BlankLine(ps, n, scan.upper);
          return Fault;
        case HexFileError =>
          UndecodedLine(ps, n);
          return Rejected;
        case Record(record) =>
          ProgressStep(ps, n, scan.upper, record, covered);
          ghost var taken := Taken(record, AbsoluteAddress(scan.upper, record), covered);
          var ok;
          ok, scan := ApplyRecord(record, occupied, scan, covered);
          covered := taken;
          if !ok {
            return Rejected;
          }
      }
    }
    outcome := Verdict(occupied, scan, covered, ps);
  }

  /** The checks after the loop. */
  method Verdict(occupied: array<Byte>, scan: Scan, ghost covered: set<int>, ghost ps: seq<RecordResult>)
    returns (outcome: Outcome)
    requires occupied.Length == FLASH_BYTES && scan.records == |ps|
    requires Progress(ps, |ps|, scan.upper, scan.sawEof)
    requires covered == Seen(ps, |ps|) && Tally(occupied, scan.dataBytes, scan.lowest, scan.highest, covered)
    ensures !outcome.Fault? && forall n: nat :: !FaultsAt(ps, n)
    ensures outcome.Image? <==> Acceptable(ps)
    ensures outcome.Image? ==>
              outcome == Image(|ps|, |covered|, 0, scan.highest)
              && scan.highest in covered && forall a :: a in covered ==> a <= scan.highest
  {
    Finished(ps, scan.upper, scan.sawEof);
    if !scan.sawEof {
      return Rejected;
    }
    if scan.dataBytes == 0 || scan.lowest.None? || scan.highest < 0 {
      return Rejected;
    }
    if occupied[0] == 0 {
      return Rejected;
    }
    return Image(scan.records, scan.dataBytes, scan.lowest.value, scan.highest);
  }

  // ---------------------------------------------------------------- what acceptance means for flash

  /** Every accepted octet sits at its record's own address: no segment offset, no wrap. */
  lemma NoWrap(recs: seq<Rec>, i: nat)
    requires Sound(recs) && i < |recs| && Kind(recs[i]) == 0
    ensures UpperBefore(recs, i) == 0
    ensures Start(recs, i) == Address(recs[i]) && Address(recs[i]) + Count(recs[i]) <= FLASH_BYTES
  {
    assert Formed(recs[i]);
    assert Start(recs, i) + Count(recs[i]) <= FLASH_BYTES;
  }

  lemma ByteIsUnique(recs: seq<Rec>, i: nat, a: int)
    requires Sound(recs) && Covers(recs, i, a) && a in Covered(recs)
    ensures ByteAt(recs, a) == Payload(recs[i])[a - Start(recs, i)]
    ensures forall j: nat :: Covers(recs, j, a) ==> j == i
  {
    forall j: nat | Covers(recs, j, a) ensures j == i {
      assert !(i < j) && !(j < i);
    }
  }

  /** Octet `k` of data record `i` is found in the image at the record's address plus `k`. */
  ghost predicate Placed(recs: seq<Rec>, i: nat, k: nat)
    requires i < |recs| && k < Count(recs[i])
  {
    var a := Address(recs[i]) + k;
    a < FLASH_BYTES && a in MemoryImage(recs) && MemoryImage(recs)[a] == Payload(recs[i])[k]
  }

  /** The records determine the flash contents: every payload octet is where its record puts it. */
  lemma ImageHoldsEveryByte(recs: seq<Rec>)
    requires Sound(recs)
    ensures MemoryImage(recs).Keys == Covered(recs)
    ensures forall i: nat, k: nat :: i < |recs| && Kind(recs[i]) == 0 && k < Count(recs[i]) ==> Placed(recs, i, k)
  {
    forall i: nat, k: nat | i < |recs| && Kind(recs[i]) == 0 && k < Count(recs[i]) ensures Placed(recs, i, k) {
      NoWrap(recs, i);
      var a := Address(recs[i]) + k;
      assert Covers(recs, i, a);
      assert IsCovered(recs, a) && a in Covered(recs);
      ByteIsUnique(recs, i, a);
    }
  }

  /** Conversely nothing else is written: every address of the image comes from one record. */
  lemma ImageHoldsNothingElse(recs: seq<Rec>, a: int)
    requires Sound(recs) && a in MemoryImage(recs)
    ensures exists i: nat :: Covers(recs, i, a) && MemoryImage(recs)[a] == Payload(recs[i])[a - Address(recs[i])] &&
                             forall j: nat :: Covers(recs, j, a) ==> j == i
  {
    var i: nat :| Covers(recs, i, a);
    NoWrap(recs, i);
    ByteIsUnique(recs, i, a);
  }
}

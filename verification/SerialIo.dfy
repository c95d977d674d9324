/**
 The bounded reader and writer of one serial session, cul868_flasher/app/serial.py:38-48,134-247.

 A port logs every system call made on its descriptor, and a valid log holds exactly the answers of its
 device in turn, so the contracts speak of what was really asked, read and written. Successive readings of
 the monotonic clock are taken to differ; the readings that only bound a select belong to that select.
 */
module SerialIo {
  import opened Common

  type Bytes = seq<Byte>

  /**
   Answers to the n-th system call: whether select reports readiness, what read returns for a given
   size (`None` is OSError, `[]` an end of file), how much of a view write accepts (`None` is
   OSError), and how much later than the previous one a clock reading is.
   */
  datatype Device = Device(ready: nat -> bool, read: (nat, nat) -> Option<Bytes>, write: (nat, Bytes) -> Option<int>,
    delay: nat -> nat)

  datatype Call =
    | Clock(now: int)
    | Polled(ready: bool)
    | Read(asked: nat, chunk: Option<Bytes>)
    | Wrote(view: Bytes, taken: Option<int>)

  datatype Answer = Line(text: string) | SerialError

  const READ_LIMIT := 2048

  /** At most `size` bytes come back. */
  function Clipped(raw: Option<Bytes>, size: nat): (chunk: Option<Bytes>)
    ensures chunk.Some? ==> |chunk.value| <= size
  {
    if raw.Some? then Some(raw.value[..Min(size, |raw.value|)]) else None
  }

  /** At most the whole view is accepted. */
  function Capped(raw: Option<int>, size: nat): (taken: Option<int>)
    ensures taken.Some? ==> taken.value <= size
  {
    if raw.Some? then Some(Min(raw.value, size)) else None
  }

  /** The n-th call gets the n-th answer of the device; `before` is the last clock reading. */
  predicate Gives(device: Device, n: nat, before: int, call: Call)
  {
    match call
    case Clock(now) => now == before + 1 + device.delay(n)
    case Polled(ready) => ready == device.ready(n)
    case Read(asked, chunk) => chunk == Clipped(device.read(n, asked), asked)
    case Wrote(view, taken) => taken == Capped(device.write(n, view), |view|)
  }

  /** The last clock reading. */
  function Reading(log: seq<Call>): int
  {
    if log == [] then 0 else if log[|log| - 1].Clock? then log[|log| - 1].now else Reading(log[..|log| - 1])
  }

  ghost predicate Genuine(device: Device, log: seq<Call>)
  {
    forall n :: 0 <= n < |log| ==> Gives(device, n, Reading(log[..n]), log[n])
  }

  lemma GenuineGrows(device: Device, log: seq<Call>, call: Call)
    requires Genuine(device, log) && Gives(device, |log|, Reading(log), call)
    ensures Genuine(device, log + [call])
    ensures Reading(log + [call]) == if call.Clock? then call.now else Reading(log)
  {
    var all := log + [call];
    assert all[..|log|] == log;
    assert forall n :: 0 <= n < |log| ==> all[..n] == log[..n] && all[n] == log[n];
  }

  class Port {
    const device: Device
    var calls: nat
    var now: int
    ghost var log: seq<Call>

    /** The log holds every call that was made, with the answer the device gave it. */
    ghost predicate Valid()
      reads this
    {
      calls == |log| && now == Reading(log) && Genuine(device, log)
    }

    constructor (device: Device)
      ensures Valid() && this.device == device && log == []
    {
      this.device := device;
      calls, now, log := 0, 0, [];
    }

    method Monotonic() returns (t: int)
      requires Valid()
      modifies this
      ensures Valid() && log == old(log) + [Clock(t)] && t == now > old(now)
    {
      hide Genuine;
      GenuineGrows(device, log, Clock(now + 1 + device.delay(calls)));
      now, calls := now + 1 + device.delay(calls), calls + 1;
      t := now;
      log := log + [Clock(t)];
    }

    method Select() returns (ready: bool)
      requires Valid()
      modifies this`calls, this`log
      ensures Valid() && log == old(log) + [Polled(ready)]
    {
      hide Genuine;
      ready := device.ready(calls);
      GenuineGrows(device, log, Polled(ready));
      calls, log := calls + 1, log + [Polled(ready)];
    }

    method ReadChunk(size: nat) returns (chunk: Option<Bytes>)
      requires Valid()
      modifies this`calls, this`log
      ensures Valid() && log == old(log) + [Read(size, chunk)] && (chunk.Some? ==> |chunk.value| <= size)
    {
      hide Genuine;
      chunk := Clipped(device.read(calls, size), size);
      GenuineGrows(device, log, Read(size, chunk));
      calls, log := calls + 1, log + [Read(size, chunk)];
    }

    method WriteSome(view: Bytes) returns (taken: Option<int>)
      requires Valid()
      modifies this`calls, this`log
      ensures Valid() && log == old(log) + [Wrote(view, taken)] && (taken.Some? ==> taken.value <= |view|)
    {
      hide Genuine;
      taken := Capped(device.write(calls, view), |view|);
      GenuineGrows(device, log, Wrote(view, taken));
      calls, log := calls + 1, log + [Wrote(view, taken)];
    }
  }

  // ---------------------------------------------------------------- reading a log

  /** The chunks that arrived, in order. */
  function Received(log: seq<Call>): (chunks: seq<Bytes>)
    ensures |chunks| <= |log|
  {
    if log == [] then []
    else
      var before, last := Received(log[..|log| - 1]), log[|log| - 1];
      if last.Read? && last.chunk.Some? && last.chunk.value != [] then before + [last.chunk.value] else before
  }

  /** The bytes the kernel took, in order. */
  function Sent(log: seq<Call>): Bytes
  {
    if log == [] then []
    else
      var before, last := Sent(log[..|log| - 1]), log[|log| - 1];
      if last.Wrote? && last.taken.Some? && 0 < last.taken.value <= |last.view|
      then before + last.view[..last.taken.value] else before
  }

  lemma LogGrows(log: seq<Call>, call: Call)
    ensures Received(log + [call]) ==
            Received(log) + (if call.Read? && call.chunk.Some? && call.chunk.value != []
              then [call.chunk.value] else [])
    ensures Sent(log + [call]) ==
            Sent(log) + (if call.Wrote? && call.taken.Some? && 0 < call.taken.value <= |call.view|
              then call.view[..call.taken.value] else [])
  {
    assert (log + [call])[..|log|] == log;
  }

  /** Every write offers exactly what is still missing of `data`, and nothing is read. */
  ghost predicate WritesOf(log: seq<Call>, data: Bytes)
  {
    forall k :: 0 <= k < |log| ==>
      (log[k].Wrote? && Sent(log[..k]) + log[k].view == data) || log[k].Polled?
  }

  /** The call after which writing is given up. */
  predicate Blocked(call: Call)
  {
    call == Polled(false) || (call.Wrote? && (call.taken.None? || call.taken.value <= 0))
  }

  /** Every read asks for 1 to 256 bytes that still fit under the limit, and nothing is written. */
  ghost predicate ReadsOf(log: seq<Call>)
  {
    forall k :: 0 <= k < |log| ==>
      && !log[k].Wrote?
      && (log[k].Read? ==> 1 <= log[k].asked <= 256 && |Flatten(Received(log[..k]))| + log[k].asked <= READ_LIMIT)
  }

  /** Nothing is waited for or read once a clock reading has come to the end of the time. */
  ghost predicate Timely(log: seq<Call>, timeout: nat)
  {
    log != [] && log[0].Clock?
    && forall k :: 0 <= k < |log| && !log[k].Clock? ==> Reading(log[..k]) < log[0].now + timeout
  }

  /** No earlier point of the log had an answer. */
  ghost predicate NoneBefore(log: seq<Call>, matches: Bytes -> bool)
  {
    forall k :: 0 <= k < |log| && Received(log[..k]) != [] ==> Found(Received(log[..k]), matches).None?
  }

  /** Why a read ends without a line: no data, an error, the time, the limit, or a line that is not ASCII. */
  ghost predicate GivenUp(log: seq<Call>, matches: Bytes -> bool, timeout: nat)
  {
    && log != [] && log[0].Clock?
    && var last, found := log[|log| - 1], Found(Received(log), matches);
       || last == Polled(false)
       || (last.Read? && last.chunk.None?)
       || (|log| > 1 && last.Clock? && last.now >= log[0].now + timeout)
       || |Flatten(Received(log))| == READ_LIMIT
       || (found.Some? && !IsAscii(found.value))
  }

  // ---------------------------------------------------------------- segments

  predicate IsLineEnd(b: Byte) { b == 10 || b == 13 }

  /** `response.replace(CR, LF).split(LF)`: always at least one segment, the last one unfinished. */
  function Segments(buffer: Bytes): (lines: seq<Bytes>)
    ensures |lines| >= 1
  {
    if buffer == [] then [[]]
    else
      var rest := Segments(buffer[1..]);
      if IsLineEnd(buffer[0]) then [[]] + rest else [[buffer[0]] + rest[0]] + rest[1..]
  }

  function FirstMatch(lines: seq<Bytes>, matches: Bytes -> bool): Option<Bytes>
  {
    if lines == [] then None else if matches(lines[0]) then Some(lines[0]) else FirstMatch(lines[1..], matches)
  }

  lemma {:induction false} FirstMatchIsFirst(lines: seq<Bytes>, matches: Bytes -> bool)
    ensures match FirstMatch(lines, matches)
            case None => forall i :: 0 <= i < |lines| ==> !matches(lines[i])
            case Some(l) => exists i :: 0 <= i < |lines| && lines[i] == l && matches(l) &&
                                        forall j :: 0 <= j < i ==> !matches(lines[j])
  {
    if lines != [] && !matches(lines[0]) {
      FirstMatchIsFirst(lines[1..], matches);
      assert forall i :: 1 <= i < |lines| ==> lines[i] == lines[1..][i - 1];
      if FirstMatch(lines, matches).Some? {
        var l := FirstMatch(lines, matches).value;
        var i :| 0 <= i < |lines[1..]| && lines[1..][i] == l && forall j :: 0 <= j < i ==> !matches(lines[1..][j]);
        assert lines[i + 1] == l;
      }
    }
  }

  function Flatten(chunks: seq<Bytes>): Bytes
  {
    if chunks == [] then [] else Flatten(chunks[..|chunks| - 1]) + chunks[|chunks| - 1]
  }

  predicate IsAscii(b: Bytes) { forall i :: 0 <= i < |b| ==> b[i] < 128 }

  lemma AsciiExactly(b: Bytes)
    ensures !IsAscii(b) <==> exists i :: 0 <= i < |b| && b[i] >= 0x80
  {
  }

  function Decode(b: Bytes): (s: string)
    ensures |s| == |b| && forall i :: 0 <= i < |b| ==> s[i] == b[i] as char
  {
    seq(|b|, i requires 0 <= i < |b| => b[i] as char)
  }

  /** The bytes received so far answer the request. */
  function Found(chunks: seq<Bytes>, matches: Bytes -> bool): Option<Bytes>
  {
    FirstMatch(Segments(Flatten(chunks)), matches)
  }

  lemma FlattenAppend(chunks: seq<Bytes>, chunk: Bytes)
    ensures Flatten(chunks + [chunk]) == Flatten(chunks) + chunk
  {
    assert (chunks + [chunk])[..|chunks|] == chunks;
  }

  /** Segments are what the name says: no line end inside, and nothing else is dropped. */
  lemma {:induction false} SegmentsHoldTheLines(buffer: Bytes)
    ensures var lines := Segments(buffer);
            && (forall i :: 0 <= i < |lines| ==> forall k :: 0 <= k < |lines[i]| ==> lines[i][k] !in {10, 13})
            && Joined(lines) == Normalised(buffer)
  {
    if buffer != [] {
      SegmentsHoldTheLines(buffer[1..]);
      var rest, lines := Segments(buffer[1..]), Segments(buffer);
      if IsLineEnd(buffer[0]) {
        assert lines[1..] == rest;
      } else {
        assert lines[0] == [buffer[0]] + rest[0] && lines[1..] == rest[1..];
        assert forall i :: 1 <= i < |lines| ==> lines[i] == rest[i];
        if |rest| > 1 {
          assert lines[0] + [10] + Joined(lines[1..]) == [buffer[0]] + (rest[0] + [10] + Joined(rest[1..]));
        }
        assert Joined(lines) == [buffer[0]] + Joined(rest);
      }
    }
  }

  /** Segments glued together again with LF. */
  function Joined(lines: seq<Bytes>): Bytes
    requires lines != []
  {
    if |lines| == 1 then lines[0] else lines[0] + [10] + Joined(lines[1..])
  }

  function Normalised(buffer: Bytes): (b: Bytes)
    ensures |b| == |buffer|
  {
    if buffer == [] then [] else [if buffer[0] == 13 then 10 else buffer[0]] + Normalised(buffer[1..])
  }

  // ---------------------------------------------------------------- writing

  /**
   `_write_all`: each write offers the rest of the data, success means exactly that the kernel took all of
   it, and a failure that the last call made no progress.
   */
  method WriteAll(port: Port, data: Bytes) returns (ok: bool, ghost mine: seq<Call>)
    requires port.Valid()
    modifies port`calls, port`log
    ensures port.Valid() && port.log == old(port.log) + mine
    ensures WritesOf(mine, data) && (ok <==> Sent(mine) == data)
    ensures !ok ==> mine != [] && Blocked(mine[|mine| - 1])
  {
    hide Sent, WritesOf, Port.Valid, Genuine;
    var view := data;
    mine := NothingSent(data);
    while view != []
      invariant port.Valid() && port.log == old(port.log) + mine
      invariant Sent(mine) + view == data && WritesOf(mine, data)
      decreases |view|
    {
      var ready := port.Select();
      WritesGrow(mine, Polled(ready), data);
      mine := mine + [Polled(ready)];
      if !ready {
        return false, mine;
      }
      var taken := port.WriteSome(view);
      WritesGrow(mine, Wrote(view, taken), data);
      mine := mine + [Wrote(view, taken)];
      if taken.None? || taken.value <= 0 {
        return false, mine;
      }
      view := view[taken.value..];
    }
    return true, mine;
  }

  lemma NothingSent(data: Bytes) returns (log: seq<Call>)
    ensures log == [] && Sent(log) == [] && WritesOf(log, data)
  {
    log := [];
  }

  lemma WritesGrow(log: seq<Call>, call: Call, data: Bytes)
    requires WritesOf(log, data) && (call.Polled? || (call.Wrote? && Sent(log) + call.view == data))
    ensures WritesOf(log + [call], data)
    ensures Sent(log + [call]) ==
            Sent(log) + (if call.Wrote? && call.taken.Some? && 0 < call.taken.value <= |call.view|
              then call.view[..call.taken.value] else [])
  {
    LogGrows(log, call);
    var all := log + [call];
    assert forall k :: 0 <= k < |log| ==> all[..k] == log[..k] && all[k] == log[k];
    assert all[..|log|] == log;
  }

  // ---------------------------------------------------------------- reading

  /**
   The read loop of `_request_line`. A line it returns is the first matching segment of the shortest
   received prefix that has one; otherwise the log says why it gave up.
   */
  method ReadLine(port: Port, matches: Bytes -> bool, timeout: nat) returns (answer: Answer, ghost mine: seq<Call>)
    requires port.Valid()
    modifies port
    ensures port.Valid() && port.log == old(port.log) + mine
    ensures ReadsOf(mine) && |Flatten(Received(mine))| <= READ_LIMIT && NoneBefore(mine, matches)
    ensures Timely(mine, timeout)
    ensures var found := Found(Received(mine), matches);
            && (answer.Line? <==> Received(mine) != [] && found.Some? && IsAscii(found.value))
            && (answer.Line? ==> answer.text == Decode(found.value))
    ensures answer.SerialError? ==> GivenUp(mine, matches, timeout)
  {
    hide Segments, FirstMatch, Received, ReadsOf, NoneBefore, Port.Valid, Genuine, Timely, Reading;
    var start := port.Monotonic();
    mine := [Clock(start)];
    Begun(start, matches);
    BegunInTime(start, timeout);
    var response: Bytes := [];
    var now := port.Monotonic();
    TimelyGrows(mine, Clock(now), timeout);
    mine := Noted(mine, Clock(now), matches);
    while now < start + timeout
      invariant port.Valid() && port.log == old(port.log) + mine && port.now == now
      invariant |mine| > 1 && mine[0] == Clock(start) && mine[|mine| - 1] == Clock(now)
      invariant response == Flatten(Received(mine)) && |response| < READ_LIMIT
      invariant Progress(mine, matches) && Timely(mine, timeout) && Reading(mine) == now
      decreases start + timeout - now
    {
      var ready := port.Select();
      TimelyGrows(mine, Polled(ready), timeout);
      mine := Noted(mine, Polled(ready), matches);
      if !ready {
        return SerialError, mine;
      }
      var size := Min(256, READ_LIMIT - |response|);
      var chunk := port.ReadChunk(size);
      ReadGrows(mine, size, chunk, matches);
      TimelyGrows(mine, Read(size, chunk), timeout);
      mine := mine + [Read(size, chunk)];
      if chunk.None? {
        return SerialError, mine;
      }
      if chunk.value != [] {
        response := response + chunk.value;
        var line := FirstMatch(Segments(response), matches);
        if line.Some? {
          return if IsAscii(line.value) then Line(Decode(line.value)) else SerialError, mine;
        }
        if |response| >= READ_LIMIT {
          return SerialError, mine;
        }
      }
      now := port.Monotonic();
      TimelyGrows(mine, Clock(now), timeout);
      mine := Noted(mine, Clock(now), matches);
    }
    return SerialError, mine;
  }

  /** Nothing received so far answers the request. */
  ghost predicate Progress(log: seq<Call>, matches: Bytes -> bool)
  {
    && ReadsOf(log) && NoneBefore(log, matches)
    && (Received(log) != [] ==> Found(Received(log), matches).None?)
  }

  lemma Begun(start: int, matches: Bytes -> bool)
    ensures Progress([Clock(start)], matches) && Received([Clock(start)]) == []
  {
    LogGrows([], Clock(start));
    assert [] + [Clock(start)] == [Clock(start)];
  }

  lemma BegunInTime(start: int, timeout: nat)
    ensures Timely([Clock(start)], timeout) && Reading([Clock(start)]) == start
  {
  }

  lemma TimelyGrows(log: seq<Call>, call: Call, timeout: nat)
    requires Timely(log, timeout) && (call.Clock? || Reading(log) < log[0].now + timeout)
    ensures Timely(log + [call], timeout)
    ensures Reading(log + [call]) == if call.Clock? then call.now else Reading(log)
  {
    var all := log + [call];
    assert all[..|log|] == log;
    assert forall k :: 0 <= k < |log| ==> all[..k] == log[..k] && all[k] == log[k];
  }

  /** A call that brings nothing leaves everything as it was. */
  lemma Noted(log: seq<Call>, call: Call, matches: Bytes -> bool) returns (all: seq<Call>)
    requires Progress(log, matches) && (call.Clock? || call.Polled?)
    ensures all == log + [call] && Progress(all, matches) && Received(all) == Received(log)
  {
    all := log + [call];
    LogGrows(log, call);
    assert forall k :: 0 <= k < |log| ==> all[..k] == log[..k] && all[k] == log[k];
    assert all[..|log|] == log;
  }

  lemma ReadGrows(log: seq<Call>, asked: nat, chunk: Option<Bytes>, matches: Bytes -> bool)
    requires Progress(log, matches) && 1 <= asked <= 256 && |Flatten(Received(log))| + asked <= READ_LIMIT
    ensures var all := log + [Read(asked, chunk)];
            && ReadsOf(all) && NoneBefore(all, matches)
            && Flatten(Received(all)) == Flatten(Received(log)) + (if chunk.Some? then chunk.value else [])
            && (chunk.None? || chunk.value == [] ==> Received(all) == Received(log))
            && (chunk.Some? && chunk.value != [] ==> Received(all) != [])
  {
    hide Received, Flatten, Found;
    assert Received(log) + [] == Received(log) && Flatten(Received(log)) + [] == Flatten(Received(log));
    var call := Read(asked, chunk);
    var all := log + [call];
    LogGrows(log, call);
    if chunk.Some? && chunk.value != [] {
      FlattenAppend(Received(log), chunk.value);
    }
    assert forall k :: 0 <= k < |log| ==> all[..k] == log[..k] && all[k] == log[k];
    assert all[..|log|] == log;
  }

  // ---------------------------------------------------------------- version

  function Prefixed(b: Bytes): bool { [86, 32] <= b || [86, 84, 83, 32] <= b }

  predicate StartsAt(s: string, i: nat, part: string) { i + |part| <= |s| && s[i..i + |part|] == part }

  predicate Contains(s: string, part: string) { exists i: nat :: i <= |s| && StartsAt(s, i, part) }

  predicate SupportsCulLedControl(version: string)
  {
    ("V " <= version || "VTS " <= version) && Contains(version, "CUL868")
  }

  /** The line that these reads end in, if it is ASCII and names the firmware. */
  ghost predicate GaveVersion(log: seq<Call>, text: string)
  {
    var found := Found(Received(log), Prefixed);
    && Received(log) != [] && found.Some? && IsAscii(found.value) && text == Decode(found.value)
    && Contains(text, "CUL868")
  }

  /** The six bytes of CUL868 stand at `i`. */
  predicate NamesIt(line: Bytes, i: nat) { i + 6 <= |line| && line[i..i + 6] == [67, 85, 76, 56, 54, 56] }

  /** The request's filter is the prefix test of the check, which besides wants the name anywhere in the line. */
  lemma PrefixedExactly(line: Bytes)
    ensures Prefixed(line) <==> "V " <= Decode(line) || "VTS " <= Decode(line)
    ensures SupportsCulLedControl(Decode(line)) <==> Prefixed(line) && exists i: nat :: NamesIt(line, i)
  {
    forall i: nat ensures StartsAt(Decode(line), i, "CUL868") <==> NamesIt(line, i) {
      if i + 6 <= |line| {
        var cut, bytes := Decode(line)[i..i + 6], line[i..i + 6];
        assert forall k :: 0 <= k < 6 ==> cut[k] == bytes[k] as char;
        assert cut == "CUL868" <==> cut[0] == 'C' && cut[1] == 'U' && cut[2] == 'L' && cut[3] == '8' && cut[4] == '6'
                                    && cut[5] == '8';
        assert bytes == [67, 85, 76, 56, 54, 56] <==>
                 bytes[0] == 67 && bytes[1] == 85 && bytes[2] == 76 && bytes[3] == 56 && bytes[4] == 54
                 && bytes[5] == 56;
      }
    }
    var text := Decode(line);
    assert [86, 32] <= line <==> |line| >= 2 && line[0] == 86 && line[1] == 32;
    assert "V " <= text <==> |text| >= 2 && text[0] == 'V' && text[1] == ' ';
    assert [86, 84, 83, 32] <= line <==>
             |line| >= 4 && line[0] == 86 && line[1] == 84 && line[2] == 83 && line[3] == 32;
    assert "VTS " <= text <==>
             |text| >= 4 && text[0] == 'V' && text[1] == 'T' && text[2] == 'S' && text[3] == ' ';
  }

  /**
   `version`: it writes `asked`, and only if all of the request was taken reads `mine`; a version is exactly the
   line these reads end in, if it is ASCII and names a firmware with the LED command.
   */
  method Version(port: Port, timeout: nat) returns (answer: Answer, ghost asked: seq<Call>, ghost mine: seq<Call>)
    requires port.Valid()
    modifies port
    ensures port.Valid() && port.log == old(port.log) + asked + mine
    ensures WritesOf(asked, [86, 13, 10])
    ensures if Sent(asked) == [86, 13, 10] then ReadsOf(mine) && NoneBefore(mine, Prefixed) else mine == []
    ensures answer.Line? <==> Sent(asked) == [86, 13, 10] && exists text :: GaveVersion(mine, text)
    ensures answer.Line? ==> GaveVersion(mine, answer.text)
    ensures answer.Line? ==> SupportsCulLedControl(answer.text) && |answer.text| <= READ_LIMIT
    ensures answer.Line? ==> forall i :: 0 <= i < |answer.text| ==> answer.text[i] as int <= 127
    ensures answer.SerialError? && Sent(asked) == [86, 13, 10] ==>
              GivenUp(mine, Prefixed, timeout)
              || (Found(Received(mine), Prefixed).Some?
                  && !Contains(Decode(Found(Received(mine), Prefixed).value), "CUL868"))
  {
    hide Received, Sent, Found, Port.Valid, Genuine, Contains;
    var ok;
    mine := [];
    NothingReceived();
    ok, asked := WriteAll(port, [86, 13, 10]);
    if !ok {
      return SerialError, asked, mine;
    }
    answer, mine := ReadLine(port, Prefixed, timeout);
    if answer.Line? {
      VersionLine(Received(mine), answer.text);
      if Contains(answer.text, "CUL868") {
        assert GaveVersion(mine, answer.text);
      } else {
        assert forall text :: !GaveVersion(mine, text);
        answer := SerialError;
      }
    }
  }

  lemma NothingReceived()
    ensures Received([]) == []
  {
  }

  lemma VersionLine(chunks: seq<Bytes>, text: string)
    requires Found(chunks, Prefixed).Some? && text == Decode(Found(chunks, Prefixed).value)
    requires |Flatten(chunks)| <= READ_LIMIT
    ensures ("V " <= text || "VTS " <= text) && |text| <= READ_LIMIT
  {
    var line := Found(chunks, Prefixed).value;
    FirstMatchIsFirst(Segments(Flatten(chunks)), Prefixed);
    assert Prefixed(line);
    assert [86, 32] <= line ==> text[0] == 'V' && text[1] == ' ';
    assert [86, 84, 83, 32] <= line ==> text[..4] == "VTS ";
    SegmentIsShort(Flatten(chunks), line);
  }

  lemma {:induction false} SegmentIsShort(buffer: Bytes, line: Bytes)
    requires line in Segments(buffer)
    ensures |line| <= |buffer|
  {
    if buffer != [] {
      var rest := Segments(buffer[1..]);
      var k :| 0 <= k < |Segments(buffer)| && Segments(buffer)[k] == line;
      if IsLineEnd(buffer[0]) {
        if k > 0 {
          assert rest[k - 1] == line;
          SegmentIsShort(buffer[1..], line);
        }
      } else if k == 0 {
        SegmentIsShort(buffer[1..], rest[0]);
      } else {
        assert rest[k] == line;
        SegmentIsShort(buffer[1..], line);
      }
    }
  }
}

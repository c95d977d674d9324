/**
 What the fields of the state file mean, said of the characters, the JSON values and the text themselves,
 cul868_flasher/app/state.py and usb.py:27-52.
 */
module StateLaws {
  import opened Common
  import opened DeviceState

  // ---------------------------------------------------------------- the text

  function Digit(n: nat): char
    requires n < 16
  {
    "0123456789abcdef"[n]
  }

  function Decimal(n: nat): (s: string)
    ensures s != ""
  {
    if n < 10 then [Digit(n)] else Decimal(n / 10) + [Digit(n % 10)]
  }

  /** One character inside a JSON string, all ASCII. */
  function EscapedChar(c: char): string
  {
    if c == '\"' then "\\\""
    else if c == '\\' then "\\\\"
    else if c as int == 8 then "\\b"
    else if c as int == 9 then "\\t"
    else if c as int == 10 then "\\n"
    else if c as int == 12 then "\\f"
    else if c as int == 13 then "\\r"
    else if 32 <= c as int <= 126 then [c]
    else
      var n := c as int % 0x1_0000;
      "\\u" + [Digit(n / 0x1000), Digit(n / 0x100 % 16), Digit(n / 16 % 16), Digit(n % 16)]
  }

  function Escaped(s: string): string { if s == "" then "" else EscapedChar(s[0]) + Escaped(s[1..]) }

  function TextOf(v: Option<string>): string { if v.None? then "null" else "\"" + Escaped(v.value) + "\"" }

  function NumberOf(v: Option<int>): string { if v.Some? && v.value >= 0 then Decimal(v.value) else "null" }

  /** What `json.dumps` writes for a normal record, with its compact separators. */
  function Written(n: KnownDevice): string
  {
    "{\"topology\":" + TextOf(Some(n.topology)) + ",\"usb_serial\":" + TextOf(n.serial) + ",\"version\":"
    + TextOf(n.version) + ",\"configured_device\":" + TextOf(n.configured) + ",\"recovery_binding\":"
    + TextOf(Some(Name(n.binding))) + ",\"handoff_deadline\":" + NumberOf(n.deadline) + "}"
  }

  lemma {:induction false} EscapedLength(s: string)
    ensures |Escaped(s)| == EscapedSize(s)
  {
    if s != "" {
      EscapedLength(s[1..]);
    }
  }

  lemma {:induction false} DecimalLength(n: nat)
    ensures |Decimal(n)| == DecimalSize(n)
  {
    if n >= 10 {
      DecimalLength(n / 10);
    }
  }

  lemma TextLength(v: Option<string>)
    ensures |TextOf(v)| == TextSize(v)
  {
    if v.Some? {
      EscapedLength(v.value);
    }
  }

  lemma NumberLength(v: Option<int>)
    requires v.Some? ==> v.value >= 0
    ensures |NumberOf(v)| == DeadlineSize(v)
  {
    if v.Some? {
      DecimalLength(v.value);
    }
  }

  /** The size of the file is the length of this text. */
  lemma SizeIsTextLength(device: KnownDevice)
    ensures SizeOf(Normal(device)) == |Written(Normal(device))|
  {
    var n := Normal(device);
    assert n.deadline.Some? ==> n.deadline.value >= 0;
    hide Normal, Escaped, EscapedSize, DecimalSize, Decimal, Name;
    TextLength(Some(n.topology));
    TextLength(n.serial);
    TextLength(n.version);
    TextLength(n.configured);
    TextLength(Some(Name(n.binding)));
    NumberLength(n.deadline);
  }

  // ---------------------------------------------------------------- topologies

  /** The decimal text of a positive number; there is no leading zero. */
  ghost predicate SpellsPort(s: string) { exists n: nat :: n > 0 && s == Decimal(n) }

  lemma {:induction false} DecimalIsPort(n: nat)
    ensures IsDigits(Decimal(n)) && (n > 0 ==> Decimal(n)[0] != '0' && IsPortNumber(Decimal(n)))
  {
    if n >= 10 {
      DecimalIsPort(n / 10);
    }
  }

  lemma {:induction false} DigitsAreDecimal(s: string) returns (n: nat)
    requires IsPortNumber(s)
    ensures n > 0 && s == Decimal(n)
    decreases |s|
  {
    var last := s[|s| - 1] as int - '0' as int;
    assert Digit(last) == s[|s| - 1];
    if |s| == 1 {
      n := last;
    } else {
      var m := DigitsAreDecimal(s[..|s| - 1]);
      n := 10 * m + last;
      assert n / 10 == m && n % 10 == last;
      assert s == s[..|s| - 1] + [s[|s| - 1]];
    }
  }

  lemma PortNumberExactly(s: string)
    ensures IsPortNumber(s) <==> SpellsPort(s)
  {
    if IsPortNumber(s) {
      var n := DigitsAreDecimal(s);
    } else if SpellsPort(s) {
      var n: nat :| n > 0 && s == Decimal(n);
      DecimalIsPort(n);
    }
  }

  /** Port numbers with dots between them. */
  function Dotted(ports: seq<nat>): string
    requires ports != []
  {
    if |ports| == 1 then Decimal(ports[0]) else Decimal(ports[0]) + "." + Dotted(ports[1..])
  }

  predicate Positive(ports: seq<nat>) { forall i :: 0 <= i < |ports| ==> ports[i] > 0 }

  predicate SpellsPath(s: string, ports: seq<nat>) { ports != [] && Positive(ports) && s == Dotted(ports) }

  lemma {:induction false} PortPathIsDotted(s: string) returns (ports: seq<nat>)
    requires IsPortPath(s)
    ensures SpellsPath(s, ports)
    decreases |s|
  {
    hide Decimal, IsPortNumber;
    if IsPortNumber(s) {
      var n := DigitsAreDecimal(s);
      ports := [n];
    } else {
      var k :| 0 <= k < |s| && s[k] == '.' && IsPortNumber(s[..k]) && IsPortPath(s[k + 1..]);
      var n := DigitsAreDecimal(s[..k]);
      var rest := PortPathIsDotted(s[k + 1..]);
      ports := [n] + rest;
      assert ports[1..] == rest;
      assert s == s[..k] + "." + s[k + 1..];
    }
  }

  lemma {:induction false} DottedIsPortPath(ports: seq<nat>)
    requires ports != [] && Positive(ports)
    ensures IsPortPath(Dotted(ports))
  {
    DecimalIsPort(ports[0]);
    if |ports| > 1 {
      DottedIsPortPath(ports[1..]);
      var s, k := Dotted(ports), |Decimal(ports[0])|;
      assert s[k] == '.' && s[..k] == Decimal(ports[0]) && s[k + 1..] == Dotted(ports[1..]);
    }
  }

  ghost predicate SpellsTopology(s: string, bus: nat, ports: seq<nat>)
  {
    bus > 0 && ports != [] && Positive(ports) && s == Decimal(bus) + "-" + Dotted(ports)
  }

  /** `validate_usb_topology` passes exactly a bus number, a dash and port numbers with dots between them. */
  lemma TopologyExactly(s: string)
    ensures ValidTopology(s) <==> exists bus: nat, ports: seq<nat> :: SpellsTopology(s, bus, ports)
  {
    hide Decimal, Dotted, IsPortNumber, IsPortPath, Positive;
    if ValidTopology(s) {
      var k :| 0 <= k < |s| && s[k] == '-' && IsPortNumber(s[..k]) && IsPortPath(s[k + 1..]);
      var bus := DigitsAreDecimal(s[..k]);
      var ports := PortPathIsDotted(s[k + 1..]);
      assert s == s[..k] + "-" + s[k + 1..];
      assert SpellsTopology(s, bus, ports);
    }
    if exists bus: nat, ports: seq<nat> :: SpellsTopology(s, bus, ports) {
      var bus: nat, ports: seq<nat> :| SpellsTopology(s, bus, ports);
      DecimalIsPort(bus);
      DottedIsPortPath(ports);
      var k := |Decimal(bus)|;
      assert s[k] == '-' && s[..k] == Decimal(bus) && s[k + 1..] == Dotted(ports);
    }
  }

  // ---------------------------------------------------------------- device paths

  /** A maximal piece between slashes, as PurePosixPath keeps it. */
  predicate PartAt(s: string, i: nat, j: nat)
  {
    && i < j <= |s| && (i == 0 || s[i - 1] == '/') && (j == |s| || s[j] == '/')
    && (forall k :: i <= k < j ==> s[k] != '/') && s[i..j] != "."
  }

  lemma {:induction false} SlashIsFirst(s: string)
    ensures forall i :: 0 <= i < SlashAt(s) ==> s[i] != '/'
  {
    if s != "" && s[0] != '/' {
      SlashIsFirst(s[1..]);
    }
  }

  predicate PartIs(s: string, i: nat, j: nat, p: string) { PartAt(s, i, j) && s[i..j] == p }

  ghost predicate HasPart(s: string, p: string) { exists i: nat, j: nat :: PartIs(s, i, j, p) }

  /** No piece begins before `i`. */
  ghost predicate NoneBefore(s: string, i: nat) { forall k: nat, l: nat :: PartAt(s, k, l) ==> i <= k }

  ghost predicate FirstPart(s: string, p: string)
  {
    exists i: nat, j: nat :: PartIs(s, i, j, p) && NoneBefore(s, i)
  }

  /** A piece after the first slash is one of the rest. */
  lemma PartShift(s: string, rest: string, k: nat, i: nat, j: nat)
    requires k < |s| && s[k] == '/' && rest == s[k + 1..]
    ensures PartAt(rest, i, j) <==> PartAt(s, i + k + 1, j + k + 1)
    ensures forall p :: PartIs(rest, i, j, p) <==> PartIs(s, i + k + 1, j + k + 1, p)
  {
    if i < j <= |rest| {
      assert rest[i..j] == s[i + k + 1..j + k + 1];
      assert forall n :: i + k + 1 <= n < j + k + 1 ==> s[n] == rest[n - k - 1];
      assert forall n :: i <= n < j ==> rest[n] == s[n + k + 1];
    }
  }

  /** No other piece begins before the first slash than the one that ends there. */
  lemma EarlyPart(s: string, k: nat, i: nat, j: nat)
    requires s != "" && k == SlashAt(s) && i <= k
    ensures PartAt(s, i, j) <==> i == 0 && j == k && k > 0 && s[..k] != "."
    ensures forall p :: PartIs(s, i, j, p) <==> i == 0 && j == k && k > 0 && s[..k] != "." && p == s[..k]
  {
    SlashIsFirst(s);
    assert s[0..k] == s[..k];
  }

  /** A later one lies in the rest. */
  lemma LatePart(s: string, rest: string, k: nat, i: nat, j: nat)
    requires s != "" && k == SlashAt(s) && i > k && PartAt(s, i, j) && (k < |s| ==> rest == s[k + 1..])
    ensures k < |s| && j > i && PartAt(rest, i - k - 1, j - k - 1)
    ensures forall p :: PartIs(s, i, j, p) ==> PartIs(rest, i - k - 1, j - k - 1, p)
  {
    var a: nat, b: nat := i - k - 1, j - k - 1;
    hide PartAt, PartIs, SlashAt;
    assert i < j <= |s| by { PartIsWithin(s, i, j); }
    PartShift(s, rest, k, a, b);
  }

  lemma PartIsWithin(s: string, i: nat, j: nat)
    requires PartAt(s, i, j)
    ensures i < j <= |s|
  {
  }

  lemma PartsUnfold(s: string, rest: string, k: nat)
    requires s != "" && k == SlashAt(s) && rest == if k < |s| then s[k + 1..] else ""
    ensures Parts(s) == if k > 0 && s[..k] != "." then [s[..k]] + Parts(rest) else Parts(rest)
  {
  }

  /** `PurePosixPath.parts`: the pieces between slashes that are not empty and not a dot, the first one first. */
  lemma {:induction false} PartsExactly(s: string)
    ensures forall p :: p in Parts(s) <==> HasPart(s, p)
    ensures Parts(s) != [] ==> FirstPart(s, Parts(s)[0])
    decreases |s|
  {
    hide PartAt, PartIs, HasPart, FirstPart;
    if s == "" {
      NoParts();
    } else {
      var k := SlashAt(s);
      var rest := if k < |s| then s[k + 1..] else "";
      PartsExactly(rest);
      forall p ensures p in Parts(s) <==> HasPart(s, p) {
        PartsOfBoth(s, rest, k, p);
      }
      FirstOfBoth(s, rest, k);
    }
  }

  lemma NoParts()
    ensures Parts("") == [] && forall p :: !HasPart("", p)
  {
  }

  lemma PartsOfBoth(s: string, rest: string, k: nat, p: string)
    requires s != "" && k == SlashAt(s) && rest == if k < |s| then s[k + 1..] else ""
    requires p in Parts(rest) <==> HasPart(rest, p)
    ensures p in Parts(s) <==> HasPart(s, p)
  {
    hide PartAt, PartIs, Parts, SlashAt;
    PartsUnfold(s, rest, k);
    HasEither(s, rest, k, p);
  }

  lemma HasEither(s: string, rest: string, k: nat, p: string)
    requires s != "" && k == SlashAt(s) && rest == if k < |s| then s[k + 1..] else ""
    ensures HasPart(s, p) <==> HasPart(rest, p) || (k > 0 && s[..k] != "." && p == s[..k])
  {
    hide PartAt, PartIs, SlashAt;
    EarlyPart(s, k, 0, k);
    assert k > 0 && s[..k] != "." ==> PartIs(s, 0, k, s[..k]);
    NoParts();
    if HasPart(rest, p) {
      var i: nat, j: nat :| PartIs(rest, i, j, p);
      PartShift(s, rest, k, i, j);
    }
    if HasPart(s, p) {
      var i: nat, j: nat :| PartIs(s, i, j, p);
      PartIsPart(s, i, j, p);
      if i <= k {
        EarlyPart(s, k, i, j);
      } else {
        LatePart(s, rest, k, i, j);
        assert PartIs(rest, i - k - 1, j - k - 1, p);
      }
    }
  }

  lemma PartIsPart(s: string, i: nat, j: nat, p: string)
    requires PartIs(s, i, j, p)
    ensures PartAt(s, i, j)
  {
  }

  lemma FirstOfBoth(s: string, rest: string, k: nat)
    requires s != "" && k == SlashAt(s) && rest == if k < |s| then s[k + 1..] else ""
    requires Parts(rest) != [] ==> FirstPart(rest, Parts(rest)[0])
    ensures Parts(s) != [] ==> FirstPart(s, Parts(s)[0])
  {
    hide PartAt, PartIs, Parts, SlashAt;
    PartsUnfold(s, rest, k);
    EarlyPart(s, k, 0, k);
    NoParts();
    if k > 0 && s[..k] != "." {
      assert NoneBefore(s, 0) && PartIs(s, 0, k, Parts(s)[0]);
    } else if Parts(s) != [] {
      var p := Parts(s)[0];
      var i: nat, j: nat :| PartIs(rest, i, j, p) && NoneBefore(rest, i);
      PartShift(s, rest, k, i, j);
      forall m: nat, n: nat | PartAt(s, m, n) ensures i + k + 1 <= m {
        if m <= k {
          EarlyPart(s, k, m, n);
        } else {
          LatePart(s, rest, k, m, n);
        }
      }
      assert NoneBefore(s, i + k + 1);
    }
  }

  lemma FirstPartIsOne(s: string, p: string, q: string)
    requires FirstPart(s, p) && FirstPart(s, q)
    ensures p == q
  {
    var i: nat, j: nat :| PartIs(s, i, j, p) && NoneBefore(s, i);
    var m: nat, n: nat :| PartIs(s, m, n, q) && NoneBefore(s, m);
    assert i == m && j == n;
  }

  /** The paths that are recorded: absolute, below "dev", and without a step up. */
  lemma DevicePathExactly(s: string)
    ensures IsDevicePath(s) <==>
              "/" <= s && ("//" <= s ==> "///" <= s) && FirstPart(s, "dev") && !HasPart(s, "..")
  {
    PartsExactly(s);
    hide Parts, PartAt;
    if FirstPart(s, "dev") {
      assert HasPart(s, "dev") && "dev" in Parts(s);
      FirstPartIsOne(s, Parts(s)[0], "dev");
    }
  }

  // ---------------------------------------------------------------- documents

  /** This field holds a text of printable ASCII that is neither empty nor too long. */
  predicate HoldsText(d: Document, name: string, maximum: nat, text: string)
  {
    && name in d && d[name] == JString(text) && 1 <= |text| <= maximum
    && forall i :: 0 <= i < |text| ==> 32 <= text[i] as int <= 126
  }

  predicate HoldsPath(d: Document, path: string)
  {
    && "configured_device" in d && d["configured_device"] == JString(path) && 1 <= |path| <= 512
    && (forall i :: 0 <= i < |path| ==> path[i] as int < 128) && IsDevicePath(path)
  }

  /** A text that does not pass counts as absent. */
  ghost predicate OptionalText(d: Document, name: string, maximum: nat, v: Option<string>)
  {
    forall text :: v == Some(text) <==> HoldsText(d, name, maximum, text)
  }

  /** What a document must hold to be read as this record. */
  ghost predicate Describes(d: Document, k: KnownDevice)
  {
    && "topology" in d && d["topology"] == JString(k.topology) && ValidTopology(k.topology)
    && OptionalText(d, "usb_serial", 128, k.serial) && OptionalText(d, "version", 512, k.version)
    && (forall path :: k.configured == Some(path) <==> HoldsPath(d, path))
    && (if "recovery_binding" in d then d["recovery_binding"] == JString(Name(k.binding))
        else if k.version.Some? then k.binding.VerifiedApplication? else k.binding.LegacyUnknown?)
    && (k.deadline.Some? <==> k.binding.HandoffPending?)
    && (k.deadline.Some? ==>
          "handoff_deadline" in d && d["handoff_deadline"] == JInt(k.deadline.value)
          && 0 <= k.deadline.value <= 4_102_444_800)
  }

  lemma TextExactly(d: Document, name: string, maximum: nat)
    ensures OptionalText(d, name, maximum, SafeText(Text(Field(d, name)), maximum))
  {
  }

  lemma PathExactly(d: Document)
    ensures forall path :: SafeDevicePath(Text(Field(d, "configured_device"))) == Some(path) <==> HoldsPath(d, path)
  {
    hide IsDevicePath;
  }

  lemma OptionsAgree(d: Document, name: string, maximum: nat, v: Option<string>, w: Option<string>)
    requires OptionalText(d, name, maximum, v) && OptionalText(d, name, maximum, w)
    ensures v == w
  {
    assert v.Some? ==> w == Some(v.value);
    assert w.Some? ==> v == Some(w.value);
  }

  lemma PathsAgree(d: Document, v: Option<string>, w: Option<string>)
    requires forall path :: v == Some(path) <==> HoldsPath(d, path)
    requires forall path :: w == Some(path) <==> HoldsPath(d, path)
    ensures v == w
  {
    assert v.Some? ==> w == Some(v.value);
    assert w.Some? ==> v == Some(w.value);
  }

  lemma NamesAreDistinct()
    ensures forall b :: BindingNamed(Name(b)) == Some(b)
    ensures forall s, b :: BindingNamed(s) == Some(b) ==> s == Name(b)
  {
  }

  /** `load` reads exactly the documents that describe a record, also those older than the binding field. */
  lemma ReadExactly(d: Document, k: KnownDevice)
    ensures Read(d) == Some(k) <==> Describes(d, k)
  {
    NamesAreDistinct();
    TextExactly(d, "usb_serial", 128);
    TextExactly(d, "version", 512);
    PathExactly(d);
    hide ValidTopology, IsDevicePath, SafeText, SafeDevicePath, Name, BindingNamed, HoldsText, HoldsPath, OptionalText;
    if Describes(d, k) {
      OptionsAgree(d, "usb_serial", 128, k.serial, SafeText(Text(Field(d, "usb_serial")), 128));
      OptionsAgree(d, "version", 512, k.version, SafeText(Text(Field(d, "version")), 512));
      PathsAgree(d, k.configured, SafeDevicePath(Text(Field(d, "configured_device"))));
    }
  }
}

/**
 The persisted recovery record, cul868_flasher/app/state.py.

 A document is a map from JSON field names to JSON values; reading back what was written is
 the only property of the JSON text that is used, except for its length, which is computed.
 */
module DeviceState {
  import opened Common
  import SerialIo

  datatype Json = JNull | JBool(b: bool) | JInt(i: int) | JString(s: string) | JOther

  type Document = map<string, Json>

  datatype Binding = VerifiedApplication | HandoffPending | ObservedBootloader | LegacyUnknown

  datatype KnownDevice = KnownDevice(
    topology: string,
    serial: Option<string>,
    version: Option<string>,
    configured: Option<string>,
    binding: Binding,
    deadline: Option<int>)

  /** What is on disk: nothing, something unusable, or a document with its length in bytes. */
  datatype File = Missing | Unusable | Stored(size: nat, document: Document)

  const MAX_STATE_BYTES := 4096
  const MAX_DEADLINE := 4_102_444_800

  // ---------------------------------------------------------------- field normalisers

  predicate IsDigits(s: string) { forall i :: 0 <= i < |s| ==> '0' <= s[i] <= '9' }

  predicate IsPortNumber(s: string) { s != "" && s[0] != '0' && IsDigits(s) }

  predicate IsPortPath(s: string)
    decreases |s|
  {
    IsPortNumber(s) || exists k :: 0 <= k < |s| && s[k] == '.' && IsPortNumber(s[..k]) && IsPortPath(s[k + 1..])
  }

  /** `validate_usb_topology`: 2-3 or 2-3.1. */
  predicate ValidTopology(s: string)
  {
    exists k :: 0 <= k < |s| && s[k] == '-' && IsPortNumber(s[..k]) && IsPortPath(s[k + 1..])
  }

  predicate IsPrintable(s: string) { forall i :: 0 <= i < |s| ==> ' ' <= s[i] <= '~' }

  predicate IsAscii(s: string) { forall i :: 0 <= i < |s| ==> s[i] < 128 as char }

  function SafeText(value: Option<string>, maximum: nat): (r: Option<string>)
    ensures r == value || r == None
  {
    match value
    case None => None
    case Some(s) => if s == "" || |s| > maximum || !IsPrintable(s) then None else value
  }

  /** `PurePosixPath.parts` without the root: pieces between slashes, "" and "." dropped. */
  function Parts(s: string): (ps: seq<string>)
    decreases |s|
  {
    if s == "" then []
    else
      var k := SlashAt(s);
      var rest := if k < |s| then Parts(s[k + 1..]) else [];
      if k == 0 || s[..k] == "." then rest else [s[..k]] + rest
  }

  function SlashAt(s: string): (k: nat)
    ensures k <= |s| && (k < |s| ==> s[k] == '/')
  {
    if s == "" || s[0] == '/' then 0 else 1 + SlashAt(s[1..])
  }

  /** Exactly two leading slashes are another root than one or three; only "/" is accepted. */
  predicate IsDevicePath(s: string)
  {
    && "/" <= s && !("//" <= s && !("///" <= s))
    && |Parts(s)| >= 1 && Parts(s)[0] == "dev" && ".." !in Parts(s)
  }

  function SafeDevicePath(value: Option<string>): (r: Option<string>)
    ensures r == value || r == None
  {
    match value
    case None => None
    case Some(s) => if s == "" || |s| > 512 || !IsAscii(s) || !IsDevicePath(s) then None else value
  }

  function SafeDeadline(value: Option<int>): (r: Option<int>)
    ensures r == value || r == None
  {
    match value
    case None => None
    case Some(d) => if 0 <= d <= MAX_DEADLINE then value else None
  }

  function Text(j: Json): Option<string> { if j.JString? then Some(j.s) else None }

  /** JSON booleans are not integers here, although Python's are. */
  function Integer(j: Json): Option<int> { if j.JInt? then Some(j.i) else None }

  function FromText(v: Option<string>): Json { match v case None => JNull case Some(s) => JString(s) }

  function FromInteger(v: Option<int>): Json { match v case None => JNull case Some(i) => JInt(i) }

  function Name(b: Binding): string
  {
    match b
    case VerifiedApplication => "verified-application"
    case HandoffPending => "handoff-pending"
    case ObservedBootloader => "observed-bootloader"
    case LegacyUnknown => "legacy-unknown"
  }

  function BindingNamed(s: string): Option<Binding>
  {
    if s == "verified-application" then Some(VerifiedApplication)
    else if s == "handoff-pending" then Some(HandoffPending)
    else if s == "observed-bootloader" then Some(ObservedBootloader)
    else if s == "legacy-unknown" then Some(LegacyUnknown)
    else None
  }

  function Field(d: Document, name: string): Json { if name in d then d[name] else JNull }

  /** `_recovery_binding_for_document`: documents older than the field are migrated. */
  function BindingOf(d: Document, version: Option<string>): Option<Binding>
  {
    if "recovery_binding" !in d then Some(if version.Some? then VerifiedApplication else LegacyUnknown)
    else
      match d["recovery_binding"]
      case JString(s) => BindingNamed(s)
      case _ => None
  }

  // ---------------------------------------------------------------- save and load

  /** The record a save leaves behind, before it is written out. */
  function Normal(device: KnownDevice): KnownDevice
  {
    KnownDevice(device.topology, SafeText(device.serial, 128), SafeText(device.version, 512),
                SafeDevicePath(device.configured), device.binding,
                if device.binding == HandoffPending then SafeDeadline(device.deadline) else None)
  }

  /** `save` raises ValueError for a pending handoff without a usable deadline, or a bad topology. */
  predicate Savable(device: KnownDevice)
  {
    ValidTopology(device.topology) && (device.binding == HandoffPending ==> SafeDeadline(device.deadline).Some?)
  }

  function DocumentOf(device: KnownDevice): Document
  {
    var n := Normal(device);
    map["topology" := JString(n.topology), "usb_serial" := FromText(n.serial), "version" := FromText(n.version),
        "configured_device" := FromText(n.configured), "recovery_binding" := JString(Name(n.binding)),
        "handoff_deadline" := FromInteger(n.deadline)]
  }

  function FileOf(device: KnownDevice): File
  {
    Stored(SizeOf(Normal(device)), DocumentOf(device))
  }

  /** The record a document holds, whatever its length. */
  function Read(d: Document): Option<KnownDevice>
  {
    match Field(d, "topology")
    case JString(topology) =>
      if !ValidTopology(topology) then None
      else
        var version := SafeText(Text(Field(d, "version")), 512);
        var deadline := SafeDeadline(Integer(Field(d, "handoff_deadline")));
        (match BindingOf(d, version)
         case None => None
         case Some(binding) =>
           if binding == HandoffPending && deadline.None? then None
           else Some(KnownDevice(topology, SafeText(Text(Field(d, "usb_serial")), 128), version,
                                 SafeDevicePath(Text(Field(d, "configured_device"))), binding,
                                 if binding == HandoffPending then deadline else None)))
    case _ => None
  }

  function Load(file: File): Option<KnownDevice>
  {
    match file
    case Stored(size, d) => if size > MAX_STATE_BYTES then None else Read(d)
    case _ => None
  }

  // ---------------------------------------------------------------- length of the JSON text

  /** `json.dumps(..., ensure_ascii=True)`: two bytes for a short escape, six for \uXXXX. */
  function EscapedSize(s: string): (n: nat)
    ensures n >= |s|
  {
    if s == "" then 0
    else
      (if s[0] == '\"' || s[0] == '\\' || s[0] as int in {8, 9, 10, 12, 13} then 2
       else if ' ' <= s[0] <= '~' then 1 else 6) + EscapedSize(s[1..])
  }

  function DecimalSize(n: nat): nat { if n < 10 then 1 else 1 + DecimalSize(n / 10) }

  function TextSize(v: Option<string>): nat { match v case None => 4 case Some(s) => 2 + EscapedSize(s) }

  function DeadlineSize(v: Option<int>): nat
  {
    match v case None => 4 case Some(d) => if d < 0 then 0 else DecimalSize(d)
  }

  /** Braces, commas, colons and quoted field names take 99 bytes. */
  function SizeOf(n: KnownDevice): nat
  {
    99 + TextSize(Some(n.topology)) + TextSize(n.serial) + TextSize(n.version) + TextSize(n.configured)
    + TextSize(Some(Name(n.binding))) + DeadlineSize(n.deadline)
  }

  // ---------------------------------------------------------------- laws

  lemma NormalIsIdempotent(device: KnownDevice)
    ensures Normal(Normal(device)) == Normal(device)
    ensures Savable(device) <==> Savable(Normal(device))
    ensures Normal(device).deadline.Some? <==> device.binding == HandoffPending && SafeDeadline(device.deadline).Some?
  {
  }

  /** Every record `save` accepts reads back as its normal form. */
  lemma SaveThenRead(device: KnownDevice)
    requires Savable(device)
    ensures Read(DocumentOf(device)) == Some(Normal(device))
  {
    var d := DocumentOf(device);
    assert Field(d, "topology") == JString(device.topology);
    assert BindingNamed(Name(device.binding)) == Some(device.binding);
  }

  /** `load` returns it exactly if the text fits the load limit, which `save` does not check. */
  lemma SaveThenLoadExactly(device: KnownDevice)
    requires Savable(device)
    ensures Load(FileOf(device)) == (if SizeOf(Normal(device)) <= MAX_STATE_BYTES then Some(Normal(device)) else None)
  {
    SaveThenRead(device);
  }

  lemma {:induction false} EscapedSizeBound(s: string, n: nat)
    requires |s| <= n
    ensures EscapedSize(s) <= 6 * n
    ensures IsPrintable(s) ==> EscapedSize(s) <= 2 * n
  {
    if s != "" {
      EscapedSizeBound(s[1..], n - 1);
    }
  }

  lemma {:induction false} DecimalSizeBound(n: nat, digits: nat)
    requires digits >= 1 && n < Power10(digits)
    ensures DecimalSize(n) <= digits
    decreases digits
  {
    if n >= 10 {
      assert digits > 1;
      DecimalSizeBound(n / 10, digits - 1);
    }
  }

  function Power10(k: nat): nat { if k == 0 then 1 else 10 * Power10(k - 1) }

  /** A printable configured path and a topology of at most 512 characters always fit. */
  lemma PrintableRecordsFit(device: KnownDevice)
    requires Savable(device)
    requires |device.topology| <= 512 && (device.configured.Some? ==> IsPrintable(device.configured.value))
    ensures Load(FileOf(device)) == Some(Normal(device))
  {
    var n := Normal(device);
    TopologyIsPrintable(n.topology);
    assert Bounded(n);
    SaveThenLoadExactly(device);
    hide Normal;
    BoundedFits(n);
  }

  predicate PrintableWithin(s: string, n: nat) { |s| <= n && IsPrintable(s) }

  /** Field lengths of a normal record with a printable path. */
  predicate Bounded(n: KnownDevice)
  {
    && PrintableWithin(n.topology, 512)
    && (n.serial.Some? ==> PrintableWithin(n.serial.value, 128))
    && (n.version.Some? ==> PrintableWithin(n.version.value, 512))
    && (n.configured.Some? ==> PrintableWithin(n.configured.value, 512))
    && (n.deadline.Some? ==> 0 <= n.deadline.value <= MAX_DEADLINE)
  }

  lemma BoundedFits(n: KnownDevice)
    requires Bounded(n)
    ensures SizeOf(n) <= MAX_STATE_BYTES
  {
    EscapedSizeBound(n.topology, 512);
    if n.serial.Some? { EscapedSizeBound(n.serial.value, 128); }
    if n.version.Some? { EscapedSizeBound(n.version.value, 512); }
    if n.configured.Some? { EscapedSizeBound(n.configured.value, 512); }
    EscapedSizeBound(Name(n.binding), 20);
    if n.deadline.Some? {
      assert Power10(10) == 10_000_000_000;
      DecimalSizeBound(n.deadline.value, 10);
    }
  }

  lemma PrintableAround(s: string, k: nat)
    requires k < |s| && IsPrintable(s[..k]) && ' ' <= s[k] <= '~' && IsPrintable(s[k + 1..])
    ensures IsPrintable(s)
  {
    forall i | 0 <= i < |s| ensures ' ' <= s[i] <= '~' {
      if i < k {
        assert s[i] == s[..k][i];
      } else if i > k {
        assert s[i] == s[k + 1..][i - k - 1];
      }
    }
  }

  lemma {:induction false} PortPathIsPrintable(s: string)
    requires IsPortPath(s)
    ensures IsPrintable(s)
    decreases |s|
  {
    if !IsPortNumber(s) {
      var k :| 0 <= k < |s| && s[k] == '.' && IsPortNumber(s[..k]) && IsPortPath(s[k + 1..]);
      PortPathIsPrintable(s[k + 1..]);
      PrintableAround(s, k);
    }
  }

  lemma TopologyIsPrintable(s: string)
    requires ValidTopology(s)
    ensures IsPrintable(s)
  {
    var k :| 0 <= k < |s| && s[k] == '-' && IsPortNumber(s[..k]) && IsPortPath(s[k + 1..]);
    PortPathIsPrintable(s[k + 1..]);
    PrintableAround(s, k);
  }

  // ---------------------------------------------------------------- a record that is saved and then lost

  function Repeat(c: char, n: nat): (s: string)
    ensures |s| == n && forall i :: 0 <= i < n ==> s[i] == c
  {
    seq(n, _ => c)
  }

  lemma {:induction false} RepeatSize(c: char, n: nat)
    ensures EscapedSize(Repeat(c, n)) == n * (if c == '\"' then 2 else if ' ' < c <= '~'
            && c != '\\' then 1 else EscapedSize([c]))
  {
    if n > 0 {
      RepeatSize(c, n - 1);
      assert Repeat(c, n)[1..] == Repeat(c, n - 1);
      assert [c][1..] == "";
    }
  }

  lemma {:induction false} NoSlash(s: string)
    requires forall i :: 0 <= i < |s| ==> s[i] != '/'
    ensures SlashAt(s) == |s|
  {
    if s != "" {
      NoSlash(s[1..]);
    }
  }

  lemma {:induction false} EscapedSizeAppend(a: string, b: string)
    ensures EscapedSize(a + b) == EscapedSize(a) + EscapedSize(b)
  {
    if a == "" {
      assert a + b == b;
    } else {
      assert (a + b)[1..] == a[1..] + b && (a + b)[0] == a[0];
      EscapedSizeAppend(a[1..], b);
    }
  }

  /** Printable text without quotes and backslashes is not escaped. */
  lemma {:induction false} PlainSize(s: string)
    requires forall i :: 0 <= i < |s| ==> ' ' <= s[i] <= '~' && s[i] != '\"' && s[i] != '\\'
    ensures EscapedSize(s) == |s|
  {
    if s != "" {
      PlainSize(s[1..]);
    }
  }

  /** A path below /dev with two components of control characters, each a legal file name. */
  function ControlPath(n: nat): string { "/dev/" + Repeat(1 as char, n) + "/" + Repeat(1 as char, n) }

  lemma {:induction false} PartsOfTwo(name: string, rest: string)
    requires IsPathComponent(name)
    ensures Parts(name + "/" + rest) == [name] + Parts(rest) && Parts(name) == [name]
            && Parts("/" + rest) == Parts(rest)
  {
    SlashAfter(name, rest);
    NoSlash(name);
    assert name[..|name|] == name && Parts("") == [];
    var s := name + "/" + rest;
    assert s[..|name|] == name && s[|name| + 1..] == rest;
    assert ("/" + rest)[1..] == rest;
  }

  lemma {:induction false} SlashAfter(name: string, rest: string)
    requires forall i :: 0 <= i < |name| ==> name[i] != '/'
    ensures SlashAt(name + "/" + rest) == |name|
  {
    var s := name + "/" + rest;
    if name != "" {
      assert s[0] == name[0] && s[1..] == name[1..] + "/" + rest;
      SlashAfter(name[1..], rest);
    }
  }

  predicate IsPathComponent(s: string) { s != "" && s != "." && forall i :: 0 <= i < |s| ==> s[i] != '/' }

  lemma PartsOfThree(x: string, y: string, z: string)
    requires IsPathComponent(x) && IsPathComponent(y) && IsPathComponent(z)
    ensures Parts("/" + (x + "/" + (y + "/" + z))) == [x, y, z]
  {
    PartsOfTwo(y, z);
    PartsOfTwo(z, z);
    PartsOfTwo(x, y + "/" + z);
    PartsOfTwo(x, x + "/" + (y + "/" + z));
  }

  lemma ControlPathParts(n: nat)
    requires n > 0
    ensures Parts(ControlPath(n)) == ["dev", Repeat(1 as char, n), Repeat(1 as char, n)]
  {
    hide Parts;
    var name := Repeat(1 as char, n);
    assert name[0] == 1 as char;
    PartsOfThree("dev", name, name);
    assert ControlPath(n) == "/" + ("dev" + "/" + (name + "/" + name));
  }

  /** The path is kept... */
  lemma ControlPathIsKept(n: nat)
    requires 0 < n <= 253
    ensures SafeDevicePath(Some(ControlPath(n))) == Some(ControlPath(n))
  {
    ControlPathParts(n);
    var path, name := ControlPath(n), Repeat(1 as char, n);
    assert path[0] == '/' && path[1] == 'd' && name[0] == 1 as char && ".."[0] == '.';
    assert IsAscii(path) && |path| <= 512;
    hide Parts, Repeat, ControlPath;
    assert "/" <= path && !("//" <= path);
  }

  /** ... and its control characters take six bytes each. */
  lemma ControlPathSize(n: nat)
    ensures EscapedSize(ControlPath(n)) == 6 + 12 * n
  {
    var name := Repeat(1 as char, n);
    RepeatSize(1 as char, n);
    EscapedSizeAppend("/dev/" + name + "/", name);
    EscapedSizeAppend("/dev/" + name, "/");
    EscapedSizeAppend("/dev/", name);
    PlainSize("/dev/");
    PlainSize("/");
  }

  /** A version line that CulSerial.version accepts: it names a CUL868 and fills 512 characters. */
  function LongVersion(): string { "V CUL868" + Repeat('\"', 504) }

  lemma LongVersionSize()
    ensures |LongVersion()| == 512 && EscapedSize(LongVersion()) == 8 + 1008
  {
    PlainSize("V CUL868");
    RepeatSize('\"', 504);
    hide EscapedSize;
    EscapedSizeAppend("V CUL868", Repeat('\"', 504));
  }

  lemma LongVersionIsVersion()
    ensures IsPrintable(LongVersion()) && SerialIo.SupportsCulLedControl(LongVersion())
  {
    var v := LongVersion();
    assert v[2..8] == "CUL868";
    assert SerialIo.StartsAt(v, 2, "CUL868");
    assert "V " <= v;
  }

  function Oversized(): KnownDevice
  {
    KnownDevice("1-1", None, Some(LongVersion()), Some(ControlPath(253)), VerifiedApplication, None)
  }

  lemma SmallTopology()
    ensures ValidTopology("1-1")
  {
    assert "1-1"[..1] == "1" && "1-1"[2..] == "1";
    assert IsPortNumber("1") && IsPortPath("1") && "1-1"[1] == '-';
  }

  lemma SizeAtLeast(n: KnownDevice)
    ensures SizeOf(n) >= 99 + TextSize(n.version) + TextSize(n.configured)
  {
  }

  lemma OversizedTexts()
    ensures var n := Normal(Oversized()); TextSize(n.version) + TextSize(n.configured) == 1018 + 3044
  {
    LongVersionSize();
    LongVersionIsVersion();
    ControlPathIsKept(253);
    ControlPathSize(253);
  }

  /** `save` succeeds, yet the record does not come back: the length limit is only checked by `load`. */
  lemma SavedButNotLoaded()
    ensures Savable(Oversized()) && Load(FileOf(Oversized())) == None
    ensures SerialIo.SupportsCulLedControl(Oversized().version.value)
  {
    SmallTopology();
    LongVersionIsVersion();
    OversizedTexts();
    SizeAtLeast(Normal(Oversized()));
    SaveThenLoadExactly(Oversized());
  }
}

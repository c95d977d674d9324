/**
 USB discovery, cul868_flasher/app/usb.py, as functions of one sysfs snapshot.

 A snapshot is what a directory listing and the small attribute files would answer.
 Each USB probe of the flasher reads its own snapshot; nothing relates two of them.
 */
module UsbTopology {
  import opened Common

  type Path = string

  datatype Target = Target(topology: string, vendor: string, product: string,
                           bus: nat, address: nat, serial: Option<string>)

  /** One entry of /sys/bus/usb/devices: its name, the path it resolves to, the device if it is one. */
  datatype Entry = Entry(name: string, identity: string, device: Option<Target>)

  /** One entry of /sys/class/tty with the USB device it descends from, if any. */
  datatype TtyEntry = TtyEntry(name: string, device: Option<Target>)

  /** `None` stands for a directory that could not be listed. */
  datatype Snapshot = Snapshot(usb: Option<seq<Entry>>, ttys: Option<seq<TtyEntry>>, aliases: map<Path, string>)

  /** `Err` is a raised UsbTopologyError. */
  datatype Probe<+T> = Ok(value: T) | Err

  /** `ManualRecoveryTarget`: a bootloader the operator confirmed. */
  datatype Consent = Consent(topology: string, serial: Option<string>)

  predicate IsApplication(t: Target) { t.vendor == "03eb" && t.product == "204b" }

  predicate IsBootloader(t: Target) { t.vendor == "03eb" && t.product == "2ff4" }

  predicate HasIdentity(t: Target, vendor: string, product: string) { t.vendor == vendor && t.product == product }

  /** A directory lists each name once, and the topology of a device is its directory name. */
  ghost predicate Coherent(s: Snapshot)
  {
    s.usb.Some? ==>
      && (forall i, j :: 0 <= i < j < |s.usb.value| ==> s.usb.value[i].name != s.usb.value[j].name)
      && (forall i :: 0 <= i < |s.usb.value| && s.usb.value[i].device.Some? ==>
            s.usb.value[i].device.value.topology == s.usb.value[i].name)
  }

  // ---------------------------------------------------------------- specification functions

  predicate Wanted(e: Entry, vendor: string, product: string)
  {
    e.device.Some? && HasIdentity(e.device.value, vendor, product)
  }

  /** Devices of a listing with one VID:PID, in listing order. */
  function WithIdentity(entries: seq<Entry>, vendor: string, product: string): (ts: seq<Entry>)
    ensures forall e :: e in ts ==> e in entries && Wanted(e, vendor, product)
  {
    if entries == [] then []
    else
      var rest := WithIdentity(entries[1..], vendor, product);
      if Wanted(entries[0], vendor, product) then [entries[0]] + rest else rest
  }

  predicate Holds(kept: seq<Entry>, identity: string)
  {
    exists i :: 0 <= i < |kept| && kept[i].identity == identity
  }

  /** `_targets_with_identity`: the first entry for each resolved path stands for the device. */
  function Deduplicated(entries: seq<Entry>): (kept: seq<Entry>)
    ensures forall e :: e in kept ==> e in entries
  {
    if entries == [] then []
    else
      var init, last := entries[..|entries| - 1], entries[|entries| - 1];
      assert entries == init + [last];
      var kept := Deduplicated(init);
      if Holds(kept, last.identity) then kept else kept + [last]
  }

  /** One entry per physical device, and no physical device lost. */
  lemma {:induction false} DeduplicatedByIdentity(entries: seq<Entry>)
    ensures var kept := Deduplicated(entries);
            && (forall i, j :: 0 <= i < j < |kept| ==> kept[i].identity != kept[j].identity)
            && (forall i :: 0 <= i < |entries| ==> Holds(kept, entries[i].identity))
  {
    if entries != [] {
      var init, last := entries[..|entries| - 1], entries[|entries| - 1];
      DeduplicatedByIdentity(init);
      var before, kept := Deduplicated(init), Deduplicated(entries);
      assert Holds(kept, last.identity) by {
        if !Holds(before, last.identity) {
          assert kept[|before|].identity == last.identity;
        }
      }
      forall i | 0 <= i < |init| ensures Holds(kept, entries[i].identity) {
        assert Holds(before, init[i].identity);
        var k :| 0 <= k < |before| && before[k].identity == init[i].identity;
        assert kept[k] == before[k];
      }
    }
  }

  function Devices(entries: seq<Entry>): (ts: seq<Target>)
    requires forall e :: e in entries ==> e.device.Some?
    ensures |ts| == |entries| && forall i :: 0 <= i < |ts| ==> ts[i] == entries[i].device.value
  {
    seq(|entries|, i requires 0 <= i < |entries| => entries[i].device.value)
  }

  function Targets(s: Snapshot, vendor: string, product: string): Probe<seq<Target>>
  {
    match s.usb
    case None => Err
    case Some(entries) => Ok(Devices(Deduplicated(WithIdentity(entries, vendor, product))))
  }

  function AtTopology(entries: seq<Entry>, topology: string, vendor: string, product: string): (ts: seq<Target>)
    ensures forall t :: t in ts <==>
              && t.topology == topology && HasIdentity(t, vendor, product)
              && exists e :: e in entries && e.device == Some(t)
  {
    if entries == [] then []
    else
      var rest := AtTopology(entries[1..], topology, vendor, product);
      assert entries == [entries[0]] + entries[1..];
      match entries[0].device
      case Some(t) => if t.topology == topology && HasIdentity(t, vendor, product) then [t] + rest else rest
      case None => rest
  }

  /** `_single_target`. */
  function Single(s: Snapshot, topology: string, vendor: string, product: string): Probe<Option<Target>>
  {
    match s.usb
    case None => Err
    case Some(entries) =>
      var matches := AtTopology(entries, topology, vendor, product);
      if |matches| > 1 then Err else if matches == [] then Ok(None) else Ok(Some(matches[0]))
  }

  function BootloaderFor(s: Snapshot, topology: string): Probe<Option<Target>> { Single(s, topology, "03eb", "2ff4") }

  function ApplicationFor(s: Snapshot, topology: string): Probe<Option<Target>> { Single(s, topology, "03eb", "204b") }

  function BootloaderTargets(s: Snapshot): Probe<seq<Target>> { Targets(s, "03eb", "2ff4") }

  function ApplicationTargets(s: Snapshot): Probe<seq<Target>> { Targets(s, "03eb", "204b") }

  function TtyNamed(ttys: seq<TtyEntry>, name: string): Option<Target>
  {
    if ttys == [] then None else if ttys[0].name == name then ttys[0].device else TtyNamed(ttys[1..], name)
  }

  /** `configured_application`: `aliases` resolves a /dev path to a supported TTY name. */
  function ConfiguredApplication(s: Snapshot, device: Path): Probe<Target>
  {
    if device !in s.aliases || s.ttys.None? then Err
    else
      match TtyNamed(s.ttys.value, s.aliases[device])
      case None => Err
      case Some(t) => if IsApplication(t) then Ok(t) else Err
  }

  function TtysAt(ttys: seq<TtyEntry>, topology: string): (names: seq<string>)
  {
    if ttys == [] then []
    else
      var rest := TtysAt(ttys[1..], topology);
      match ttys[0].device
      case Some(t) => if t.topology == topology && IsApplication(t) then [ttys[0].name] + rest else rest
      case None => rest
  }

  /** `tty_for_topology`. */
  function TtyFor(s: Snapshot, topology: string): Probe<Option<Path>>
  {
    match s.ttys
    case None => Ok(None)
    case Some(ttys) =>
      var names := TtysAt(ttys, topology);
      if |names| > 1 then Err else if names == [] then Ok(None) else Ok(Some("/dev/" + names[0]))
  }

  // ---------------------------------------------------------------- the loops

  /** The dictionary loop of `_targets_with_identity`; its keys are the identities kept so far. */
  method TargetsWithIdentity(s: Snapshot, vendor: string, product: string) returns (r: Probe<seq<Target>>)
    ensures r == Targets(s, vendor, product)
  {
    if s.usb.None? {
      return Err;
    }
    var entries := s.usb.value;
    var keys: set<string> := {};
    var kept: seq<Entry> := [];
    assert !exists k :: Holds(kept, k);
    assert entries[..0] == [] && entries[..|entries|] == entries;
    assert WithIdentity([], vendor, product) == [] && Deduplicated([]) == [];
    hide WithIdentity, Deduplicated, Holds, Wanted, Devices;
    for n := 0 to |entries|
      invariant kept == Deduplicated(WithIdentity(entries[..n], vendor, product))
      invariant forall k :: k in keys <==> Holds(kept, k)
    {
      ListOneMore(entries, n, vendor, product);
      if Wanted(entries[n], vendor, product) && entries[n].identity !in keys {
        HoldsAppend(kept, entries[n]);
        keys := keys + {entries[n].identity};
        kept := kept + [entries[n]];
      }
    }
    return Ok(Devices(kept));
  }

  lemma ListOneMore(entries: seq<Entry>, n: nat, vendor: string, product: string)
    requires n < |entries|
    ensures var before, e := Deduplicated(WithIdentity(entries[..n], vendor, product)), entries[n];
            Deduplicated(WithIdentity(entries[..n + 1], vendor, product)) ==
            if Wanted(e, vendor, product) && !Holds(before, e.identity)
            then before + [e] else before
  {
    hide WithIdentity, Deduplicated, Holds, Wanted;
    var listed := WithIdentity(entries[..n], vendor, product);
    assert entries[..n + 1] == entries[..n] + [entries[n]] && listed + [] == listed;
    WithIdentityAppend(entries[..n], entries[n], vendor, product);
    DeduplicatedAppend(listed, entries[n]);
  }

  lemma DeduplicatedAppend(entries: seq<Entry>, last: Entry)
    ensures var kept := Deduplicated(entries);
            Deduplicated(entries + [last]) == if Holds(kept, last.identity) then kept else kept + [last]
  {
    assert (entries + [last])[..|entries|] == entries;
  }

  lemma HoldsAppend(kept: seq<Entry>, last: Entry)
    ensures forall k :: Holds(kept + [last], k) <==> Holds(kept, k) || k == last.identity
  {
    forall k | Holds(kept, k) || k == last.identity ensures Holds(kept + [last], k) {
      if Holds(kept, k) {
        var i :| 0 <= i < |kept| && kept[i].identity == k;
        assert (kept + [last])[i].identity == k;
      } else {
        assert (kept + [last])[|kept|].identity == k;
      }
    }
  }

  lemma WithIdentityStep(entries: seq<Entry>, vendor: string, product: string)
    requires entries != []
    ensures WithIdentity(entries, vendor, product) ==
            (if Wanted(entries[0], vendor, product) then [entries[0]] else [])
            + WithIdentity(entries[1..], vendor, product)
    ensures WithIdentity([], vendor, product) == []
  {
  }

  lemma {:induction false} WithIdentityAppend(entries: seq<Entry>, last: Entry, vendor: string, product: string)
    ensures WithIdentity(entries + [last], vendor, product) ==
            WithIdentity(entries, vendor, product) + if Wanted(last, vendor, product) then [last] else []
  {
    hide WithIdentity, Wanted;
    var all := entries + [last];
    WithIdentityStep(all, vendor, product);
    if entries == [] {
      assert all[1..] == [] && all[0] == last;
    } else {
      assert all[1..] == entries[1..] + [last] && all[0] == entries[0];
      WithIdentityStep(entries, vendor, product);
      WithIdentityAppend(entries[1..], last, vendor, product);
    }
  }

  lemma TtysFrom(ttys: seq<TtyEntry>, n: nat, topology: string)
    requires n < |ttys|
    ensures var at, device := TtysAt(ttys[n..], topology), ttys[n].device;
            at == (if device.Some? && device.value.topology == topology && IsApplication(device.value)
                   then [ttys[n].name] else [])
                  + TtysAt(ttys[n + 1..], topology)
  {
    assert ttys[n..][1..] == ttys[n + 1..] && ttys[n..][0] == ttys[n];
  }

  /** The loop of `tty_for_topology`. */
  method TtyForTopology(s: Snapshot, topology: string) returns (r: Probe<Option<Path>>)
    ensures r == TtyFor(s, topology)
  {
    if s.ttys.None? {
      return Ok(None);
    }
    var ttys := s.ttys.value;
    assert ttys[0..] == ttys && ttys[|ttys|..] == [] && TtysAt([], topology) == [];
    hide TtysAt;
    var matches: seq<string> := [];
    for n := 0 to |ttys|
      invariant TtysAt(ttys, topology) == matches + TtysAt(ttys[n..], topology)
    {
      TtysFrom(ttys, n, topology);
      match ttys[n].device {
        case None =>
        case Some(t) =>
          if t.topology == topology && IsApplication(t) {
            matches := matches + [ttys[n].name];
          }
      }
    }
    if |matches| > 1 {
      return Err;
    }
    return Ok(if matches == [] then None else Some("/dev/" + matches[0]));
  }

  // ---------------------------------------------------------------- what a snapshot guarantees

  lemma SingleAnswers(s: Snapshot, topology: string, vendor: string, product: string)
    ensures var r := Single(s, topology, vendor, product);
            r.Ok? && r.value.Some? ==> r.value.value.topology == topology && HasIdentity(r.value.value, vendor, product)
  {
    if s.usb.Some? {
      var ts := AtTopology(s.usb.value, topology, vendor, product);
      assert |ts| > 0 ==> ts[0] in ts;
    }
  }

  lemma ListedHaveIdentity(s: Snapshot, vendor: string, product: string)
    ensures var r := Targets(s, vendor, product);
            r.Ok? ==> forall i :: 0 <= i < |r.value| ==> HasIdentity(r.value[i], vendor, product)
  {
    if s.usb.Some? {
      var kept := Deduplicated(WithIdentity(s.usb.value, vendor, product));
      assert forall i :: 0 <= i < |kept| ==> kept[i] in kept;
    }
  }

  lemma {:induction false} AtMostOnePerTopology(entries: seq<Entry>, topology: string, vendor: string, product: string)
    requires forall i, j :: 0 <= i < j < |entries| ==> entries[i].name != entries[j].name
    requires forall i :: 0 <= i < |entries| && entries[i].device.Some? ==>
               entries[i].device.value.topology == entries[i].name
    ensures |AtTopology(entries, topology, vendor, product)| <= 1
  {
    if entries != [] {
      var rest := AtTopology(entries[1..], topology, vendor, product);
      AtMostOnePerTopology(entries[1..], topology, vendor, product);
      forall t | t in rest ensures entries[0].name != topology {
        var e :| e in entries[1..] && e.device == Some(t);
      }
      assert rest != [] ==> rest[0] in rest;
    }
  }

  /** A listed device is exactly what the lookup by its topology answers. */
  lemma ListedIsFound(s: Snapshot, vendor: string, product: string, i: nat)
    requires Coherent(s) && Targets(s, vendor, product).Ok? && i < |Targets(s, vendor, product).value|
    ensures var t := Targets(s, vendor, product).value[i];
            Single(s, t.topology, vendor, product) == Ok(Some(t))
  {
    var entries := s.usb.value;
    var kept := Deduplicated(WithIdentity(entries, vendor, product));
    assert kept[i] in kept;
    var t := kept[i].device.value;
    var found := AtTopology(entries, t.topology, vendor, product);
    assert t in found;
    AtMostOnePerTopology(entries, t.topology, vendor, product);
  }

  /** In a coherent snapshot only a missing directory makes a lookup fail. */
  lemma SingleFailsOnlyUnlisted(s: Snapshot, topology: string, vendor: string, product: string)
    requires Coherent(s)
    ensures Single(s, topology, vendor, product).Err? <==> s.usb.None?
  {
    if s.usb.Some? {
      AtMostOnePerTopology(s.usb.value, topology, vendor, product);
    }
  }

  // ---------------------------------------------------------------- what a TTY lookup means

  /** The i-th listed TTY descends from an application at this topology. */
  predicate Serves(ttys: seq<TtyEntry>, i: nat, topology: string)
  {
    && i < |ttys| && ttys[i].device.Some?
    && ttys[i].device.value.topology == topology && IsApplication(ttys[i].device.value)
  }

  ghost predicate OnlyServing(ttys: seq<TtyEntry>, i: nat, topology: string)
  {
    Serves(ttys, i, topology) && forall j: nat :: Serves(ttys, j, topology) ==> j == i
  }

  ghost predicate TwoServe(ttys: seq<TtyEntry>, i: nat, j: nat, topology: string)
  {
    i < j && Serves(ttys, i, topology) && Serves(ttys, j, topology)
  }

  lemma {:induction false} TtysAreServing(ttys: seq<TtyEntry>, topology: string)
    ensures var names := TtysAt(ttys, topology);
            && (names == [] <==> forall i: nat :: !Serves(ttys, i, topology))
            && (|names| == 1 ==> exists i: nat :: OnlyServing(ttys, i, topology) && names[0] == ttys[i].name)
            && (|names| > 1 ==> exists i: nat, j: nat :: TwoServe(ttys, i, j, topology))
  {
    if ttys != [] {
      var rest := ttys[1..];
      TtysAreServing(rest, topology);
      var names, fewer := TtysAt(ttys, topology), TtysAt(rest, topology);
      ServesLater(ttys, topology);
      if fewer != [] {
        var j: nat :| Serves(rest, j, topology);
        assert Serves(ttys, j + 1, topology);
        if Serves(ttys, 0, topology) {
          assert TwoServe(ttys, 0, j + 1, topology);
        } else if |fewer| == 1 {
          var i: nat :| OnlyServing(rest, i, topology) && fewer[0] == rest[i].name;
          assert OnlyServing(ttys, i + 1, topology);
        } else {
          var i: nat, k: nat :| TwoServe(rest, i, k, topology);
          assert TwoServe(ttys, i + 1, k + 1, topology);
        }
      } else if Serves(ttys, 0, topology) {
        assert OnlyServing(ttys, 0, topology);
      }
    }
  }

  lemma ServesLater(ttys: seq<TtyEntry>, topology: string)
    requires ttys != []
    ensures forall i: nat :: Serves(ttys[1..], i, topology) <==> Serves(ttys, i + 1, topology)
    ensures forall i: nat :: i > 0 && Serves(ttys, i, topology) ==> Serves(ttys[1..], i - 1, topology)
  {
  }

  /**
   `tty_for_topology` answers a path exactly if one listed TTY descends from an application at the
   topology and this is its node; it raises exactly if several do.
   */
  lemma TtyForExactly(s: Snapshot, topology: string)
    ensures s.ttys.None? ==> TtyFor(s, topology) == Ok(None)
    ensures s.ttys.Some? ==>
              var ttys := s.ttys.value;
              && (TtyFor(s, topology).Err? <==> exists i: nat, j: nat :: TwoServe(ttys, i, j, topology))
              && (TtyFor(s, topology) == Ok(None) <==> forall i: nat :: !Serves(ttys, i, topology))
              && (forall path: Path :: TtyFor(s, topology) == Ok(Some(path)) <==>
                    exists i: nat :: OnlyServing(ttys, i, topology) && path == "/dev/" + ttys[i].name)
  {
    if s.ttys.Some? {
      TtysAreServing(s.ttys.value, topology);
    }
  }

  // ---------------------------------------------------------------- what the other lookups mean

  /** The i-th listed TTY is the first one of this name and descends from this application. */
  predicate NamedTty(ttys: seq<TtyEntry>, i: nat, name: string, t: Target)
  {
    && i < |ttys| && ttys[i].name == name && ttys[i].device == Some(t)
    && t.vendor == "03eb" && t.product == "204b"
    && forall j :: 0 <= j < i ==> ttys[j].name != name
  }

  lemma {:induction false} NamedTtyExactly(ttys: seq<TtyEntry>, name: string, t: Target)
    ensures TtyNamed(ttys, name) == Some(t) && IsApplication(t) <==> exists i: nat :: NamedTty(ttys, i, name, t)
  {
    if ttys != [] {
      var rest := ttys[1..];
      NamedTtyExactly(rest, name, t);
      if ttys[0].name == name {
        assert TtyNamed(ttys, name) == Some(t) && IsApplication(t) ==> NamedTty(ttys, 0, name, t);
      } else {
        assert forall j :: 1 <= j < |ttys| ==> ttys[j] == rest[j - 1];
        assert forall i: nat :: NamedTty(rest, i, name, t) ==> NamedTty(ttys, i + 1, name, t);
        assert forall i: nat :: i > 0 && NamedTty(ttys, i, name, t) ==> NamedTty(rest, i - 1, name, t);
      }
    }
  }

  /**
   `configured_application` answers exactly the application behind the first TTY of the name the path resolves
   to, and raises in every other case: another stick on another TTY never stands in for it.
   */
  lemma ConfiguredApplicationExactly(s: Snapshot, device: Path)
    ensures forall t :: ConfiguredApplication(s, device) == Ok(t) <==>
              && device in s.aliases && s.ttys.Some?
              && exists i: nat :: NamedTty(s.ttys.value, i, s.aliases[device], t)
  {
    forall t
      ensures ConfiguredApplication(s, device) == Ok(t) <==>
                && device in s.aliases && s.ttys.Some?
                && exists i: nat :: NamedTty(s.ttys.value, i, s.aliases[device], t)
    {
      if device in s.aliases && s.ttys.Some? {
        NamedTtyExactly(s.ttys.value, s.aliases[device], t);
      }
    }
  }

  /** The i-th entry is a device of this identity. */
  predicate IsDevice(entries: seq<Entry>, i: nat, vendor: string, product: string)
  {
    && i < |entries| && entries[i].device.Some?
    && entries[i].device.value.vendor == vendor && entries[i].device.value.product == product
  }

  /** It is at this topology. */
  predicate SitsAt(entries: seq<Entry>, i: nat, topology: string, vendor: string, product: string)
  {
    IsDevice(entries, i, vendor, product) && entries[i].device.value.topology == topology
  }

  ghost predicate OnlySitting(entries: seq<Entry>, i: nat, topology: string, vendor: string, product: string)
  {
    && SitsAt(entries, i, topology, vendor, product)
    && forall j: nat :: SitsAt(entries, j, topology, vendor, product) ==> j == i
  }

  ghost predicate TwoSit(entries: seq<Entry>, i: nat, j: nat, topology: string, vendor: string, product: string)
  {
    i < j && SitsAt(entries, i, topology, vendor, product) && SitsAt(entries, j, topology, vendor, product)
  }

  lemma SitsLater(entries: seq<Entry>, topology: string, vendor: string, product: string)
    requires entries != []
    ensures forall i: nat :: SitsAt(entries[1..], i, topology, vendor, product) <==>
                             SitsAt(entries, i + 1, topology, vendor, product)
    ensures forall i: nat :: i > 0 && SitsAt(entries, i, topology, vendor, product) ==>
                             SitsAt(entries[1..], i - 1, topology, vendor, product)
  {
  }

  lemma {:induction false} AtTopologyCounts(entries: seq<Entry>, topology: string, vendor: string, product: string)
    ensures var ts := AtTopology(entries, topology, vendor, product);
            && (ts == [] <==> forall i: nat :: !SitsAt(entries, i, topology, vendor, product))
            && (|ts| == 1 ==> exists i: nat :: OnlySitting(entries, i, topology, vendor, product)
                                                && entries[i].device == Some(ts[0]))
            && (|ts| > 1 ==> exists i: nat, j: nat :: TwoSit(entries, i, j, topology, vendor, product))
  {
    if entries != [] {
      var rest := entries[1..];
      AtTopologyCounts(rest, topology, vendor, product);
      var ts, fewer := AtTopology(entries, topology, vendor, product), AtTopology(rest, topology, vendor, product);
      SitsLater(entries, topology, vendor, product);
      if fewer != [] {
        var j: nat :| SitsAt(rest, j, topology, vendor, product);
        assert SitsAt(entries, j + 1, topology, vendor, product);
        if SitsAt(entries, 0, topology, vendor, product) {
          assert TwoSit(entries, 0, j + 1, topology, vendor, product);
        } else if |fewer| == 1 {
          var i: nat :| OnlySitting(rest, i, topology, vendor, product) && rest[i].device == Some(fewer[0]);
          assert OnlySitting(entries, i + 1, topology, vendor, product);
        } else {
          var i: nat, k: nat :| TwoSit(rest, i, k, topology, vendor, product);
          assert TwoSit(entries, i + 1, k + 1, topology, vendor, product);
        }
      } else if SitsAt(entries, 0, topology, vendor, product) {
        assert OnlySitting(entries, 0, topology, vendor, product);
      }
    }
  }

  /**
   `_single_target`: the one device there, or nothing if there is none; it raises if there are several, or if
   the devices could not be listed.
   */
  lemma SingleExactly(s: Snapshot, topology: string, vendor: string, product: string)
    ensures s.usb.None? ==> Single(s, topology, vendor, product).Err?
    ensures s.usb.Some? ==>
              var r, entries := Single(s, topology, vendor, product), s.usb.value;
              && (r.Err? <==> exists i: nat, j: nat :: TwoSit(entries, i, j, topology, vendor, product))
              && (r == Ok(None) <==> forall i: nat :: !SitsAt(entries, i, topology, vendor, product))
              && (forall t :: r == Ok(Some(t)) <==>
                    exists i: nat :: OnlySitting(entries, i, topology, vendor, product) && entries[i].device == Some(t))
  {
    if s.usb.Some? {
      AtTopologyCounts(s.usb.value, topology, vendor, product);
    }
  }

  /** `t` is listed, at the i-th entry, and every listed device of the identity is the same physical one. */
  ghost predicate AloneAt(entries: seq<Entry>, i: nat, vendor: string, product: string, t: Target)
  {
    && FirstDevice(entries, i, vendor, product) && entries[i].device == Some(t)
    && forall j: nat :: IsDevice(entries, j, vendor, product) ==> entries[j].identity == entries[i].identity
  }

  ghost predicate FirstDevice(entries: seq<Entry>, i: nat, vendor: string, product: string)
  {
    IsDevice(entries, i, vendor, product) && forall j: nat :: j < i ==> !IsDevice(entries, j, vendor, product)
  }

  lemma {:induction false} WithIdentityExactly(entries: seq<Entry>, vendor: string, product: string)
    ensures var listed := WithIdentity(entries, vendor, product);
            && (forall i: nat :: IsDevice(entries, i, vendor, product) ==> entries[i] in listed)
            && (forall e :: e in listed ==> exists i: nat :: IsDevice(entries, i, vendor, product) && entries[i] == e)
            && (listed != [] ==> exists i: nat :: FirstDevice(entries, i, vendor, product) && entries[i] == listed[0])
  {
    if entries != [] {
      var rest := entries[1..];
      WithIdentityExactly(rest, vendor, product);
      assert forall i: nat :: IsDevice(rest, i, vendor, product) <==> IsDevice(entries, i + 1, vendor, product);
      assert forall i: nat :: i > 0 && IsDevice(entries, i, vendor, product) ==> IsDevice(rest, i - 1, vendor, product);
      var listed := WithIdentity(entries, vendor, product);
      if Wanted(entries[0], vendor, product) {
        assert FirstDevice(entries, 0, vendor, product) && listed[0] == entries[0];
      } else {
        assert listed == WithIdentity(rest, vendor, product) && !IsDevice(entries, 0, vendor, product);
        if listed != [] {
          var i: nat :| FirstDevice(rest, i, vendor, product) && rest[i] == listed[0];
          assert FirstDevice(entries, i + 1, vendor, product) && entries[i + 1] == listed[0];
        }
      }
    }
  }

  lemma {:induction false} FirstIsKept(entries: seq<Entry>)
    requires entries != []
    ensures Deduplicated(entries) != [] && Deduplicated(entries)[0] == entries[0]
  {
    if |entries| > 1 {
      FirstIsKept(entries[..|entries| - 1]);
    }
  }

  /** One entry is kept exactly if all stand for one physical device. */
  lemma KeptAlone(entries: seq<Entry>)
    requires entries != []
    ensures |Deduplicated(entries)| == 1 <==> forall e :: e in entries ==> e.identity == entries[0].identity
  {
    var kept := Deduplicated(entries);
    DeduplicatedByIdentity(entries);
    FirstIsKept(entries);
    if |kept| == 1 {
      forall e | e in entries ensures e.identity == entries[0].identity {
        var i :| 0 <= i < |entries| && entries[i] == e;
        assert Holds(kept, entries[i].identity);
      }
    } else {
      assert kept[1] in entries && kept[1].identity != kept[0].identity;
    }
  }

  lemma FirstIsOne(entries: seq<Entry>, i: nat, vendor: string, product: string)
    requires FirstDevice(entries, i, vendor, product)
    ensures forall k: nat :: FirstDevice(entries, k, vendor, product) <==> k == i
  {
  }

  /** One physical device with this identity is listed exactly if the list has one member, its first entry. */
  lemma ListedAloneExactly(s: Snapshot, vendor: string, product: string)
    ensures Targets(s, vendor, product).Err? <==> s.usb.None?
    ensures Targets(s, vendor, product) == Ok([]) <==>
              s.usb.Some? && forall i: nat :: !IsDevice(s.usb.value, i, vendor, product)
    ensures forall t :: Targets(s, vendor, product) == Ok([t]) <==>
              s.usb.Some? && exists i: nat :: AloneAt(s.usb.value, i, vendor, product, t)
  {
    if s.usb.Some? {
      var entries := s.usb.value;
      var listed := WithIdentity(entries, vendor, product);
      var kept := Deduplicated(listed);
      WithIdentityExactly(entries, vendor, product);
      DeduplicatedByIdentity(listed);
      if listed != [] {
        FirstIsKept(listed);
        var i: nat :| FirstDevice(entries, i, vendor, product) && entries[i] == listed[0];
        KeptAlone(listed);
        FirstIsOne(entries, i, vendor, product);
        assert |kept| == 1 <==> forall j: nat :: IsDevice(entries, j, vendor, product) ==>
                 entries[j].identity == entries[i].identity;
        assert forall t :: AloneAt(entries, i, vendor, product, t) <==> |kept| == 1 && kept[0].device == Some(t);
        assert forall t :: Devices(kept) == [t] <==> |kept| == 1 && kept[0].device == Some(t);
      }
    }
  }
}

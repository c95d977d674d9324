/** Which running add-ons use the radio, cul868_flasher/app/supervisor.py:106-154. */
module Consumers {
  import opened Common
  import opened Slugs

  datatype AddonInfo = AddonInfo(state: string, usesAsWmbusmeters: bool, usesAsMax2mqtt: bool)

  /** One add-on of the Supervisor list and what GET info would answer (`None` is SupervisorError). */
  datatype ListedAddon = ListedAddon(slug: Slug, state: string, isWmbusmeters: bool, isMax2mqtt: bool,
    info: Option<AddonInfo>)

  datatype Matches = Matches(wmbusmeters: seq<Slug>, max2mqtt: seq<Slug>, additional: seq<Slug>)

  function NoMatches(): Matches { Matches([], [], []) }

  /** How one listed add-on contributes; `None` is a failed info request. */
  function Contribution(a: ListedAddon, additional: set<Slug>): Option<Matches>
  {
    if a.slug in additional then
      Some(if a.state == "started" then Matches([], [], [a.slug]) else NoMatches())
    else if a.isWmbusmeters then
      match a.info
      case None => None
      case Some(i) =>
        Some(if i.state == "started" && i.usesAsWmbusmeters then Matches([a.slug], [], []) else NoMatches())
    else if a.isMax2mqtt then
      match a.info
      case None => None
      case Some(i) =>
        Some(if i.state == "started" && i.usesAsMax2mqtt then Matches([], [a.slug], []) else NoMatches())
    else Some(NoMatches())
  }

  /** How an add-on is known to use the radio. */
  datatype Kind = Wmbusmeters | Max2mqtt | Additional

  function OfKind(m: Matches, kind: Kind): seq<Slug>
  {
    match kind
    case Wmbusmeters => m.wmbusmeters
    case Max2mqtt => m.max2mqtt
    case Additional => m.additional
  }

  /** Its info says that it runs. */
  predicate Active(a: ListedAddon) { a.info.Some? && a.info.value.state == "started" }

  /** A running consumer of the device: on the operator's list, or else by the options of its kind. */
  predicate ConsumesAs(a: ListedAddon, additional: set<Slug>, kind: Kind)
  {
    match kind
    case Additional => a.slug in additional && a.state == "started"
    case Wmbusmeters => a.slug !in additional && a.isWmbusmeters && Active(a) && a.info.value.usesAsWmbusmeters
    case Max2mqtt =>
      a.slug !in additional && !a.isWmbusmeters && a.isMax2mqtt && Active(a) && a.info.value.usesAsMax2mqtt
  }

  predicate Consumes(a: ListedAddon, additional: set<Slug>)
  {
    if a.slug in additional then a.state == "started"
    else
      && (a.isWmbusmeters || a.isMax2mqtt) && Active(a)
      && if a.isWmbusmeters then a.info.value.usesAsWmbusmeters else a.info.value.usesAsMax2mqtt
  }

  /** An add-on of a known kind that the operator did not list, and whose info request failed. */
  predicate Unreadable(a: ListedAddon, additional: set<Slug>)
  {
    a.slug !in additional && (a.isWmbusmeters || a.isMax2mqtt) && a.info.None?
  }

  /** The list was had, with the info of every add-on on it. */
  predicate Listable(listed: Option<seq<ListedAddon>>)
  {
    listed.Some? && forall i :: 0 <= i < |listed.value| ==> listed.value[i].info.Some?
  }

  predicate SelectedAs(entries: seq<ListedAddon>, n: nat, additional: set<Slug>, kind: Kind, s: Slug)
    requires n <= |entries|
  {
    exists i :: 0 <= i < n && entries[i].slug == s && ConsumesAs(entries[i], additional, kind)
  }

  predicate Selected(entries: seq<ListedAddon>, n: nat, additional: set<Slug>, s: Slug)
    requires n <= |entries|
  {
    exists i :: 0 <= i < n && entries[i].slug == s && Consumes(entries[i], additional)
  }

  lemma SelectedStep(entries: seq<ListedAddon>, n: nat, additional: set<Slug>, kind: Kind)
    requires n < |entries|
    ensures forall s :: SelectedAs(entries, n + 1, additional, kind, s) <==>
                        SelectedAs(entries, n, additional, kind, s)
                        || (entries[n].slug == s && ConsumesAs(entries[n], additional, kind))
  {
    if ConsumesAs(entries[n], additional, kind) {
      assert SelectedAs(entries, n + 1, additional, kind, entries[n].slug);
    }
  }

  lemma NobodyYet(entries: seq<ListedAddon>, additional: set<Slug>)
    ensures forall kind, s :: s in OfKind(NoMatches(), kind) <==> SelectedAs(entries, 0, additional, kind, s)
  {
  }

  lemma SelectedByKind(entries: seq<ListedAddon>, additional: set<Slug>, s: Slug)
    ensures Selected(entries, |entries|, additional, s) <==>
            exists kind :: SelectedAs(entries, |entries|, additional, kind, s)
  {
    forall i | 0 <= i < |entries|
      ensures Consumes(entries[i], additional) <==> exists kind :: ConsumesAs(entries[i], additional, kind)
    {
      KindsCover(entries[i], additional);
    }
    if Selected(entries, |entries|, additional, s) {
      var i :| 0 <= i < |entries| && entries[i].slug == s && Consumes(entries[i], additional);
      var kind :| ConsumesAs(entries[i], additional, kind);
      assert SelectedAs(entries, |entries|, additional, kind, s);
    }
  }

  lemma KindsCover(a: ListedAddon, additional: set<Slug>)
    ensures Consumes(a, additional) <==> exists kind :: ConsumesAs(a, additional, kind)
  {
    var kind := if a.slug in additional then Additional else if a.isWmbusmeters then Wmbusmeters else Max2mqtt;
    assert Consumes(a, additional) ==> ConsumesAs(a, additional, kind);
  }

  /** The loop body tells each kind of running consumer, and fails exactly on one it cannot read. */
  lemma ContributionExactly(a: ListedAddon, additional: set<Slug>)
    ensures var c := Contribution(a, additional);
            && (c.None? <==> Unreadable(a, additional))
            && (c.Some? ==> forall kind, s :: s in OfKind(c.value, kind) <==>
                              s == a.slug && ConsumesAs(a, additional, kind))
  {
    assert forall kind :: OfKind(NoMatches(), kind) == [];
  }

  function SlugsOf(m: Matches): seq<Slug> { SortedSet(m.wmbusmeters + m.max2mqtt + m.additional) }

  /** A stopped consumer may also be reported in error; the stop request came from here. */
  predicate Reached(state: Option<string>, expected: string)
  {
    state.Some? && (state.value == expected || (expected == "stopped" && state.value in ["stopped", "error"]))
  }
}

/** The target resolution of the command-line tool: finding a host by alias through
    repeated discovery rounds, and choosing, from --host, --ip, --alias and the
    --bulb/--plug/--strip flags, which device the command will address.

    Discovery is an oracle: discovery[k] is what the k-th discovery call answers,
    and a call past the last round finds no device. */
module Cli {
  import opened Values

  /** A device as a discovery round reports it: the address it answered from (the
      key of the result dictionary), its alias and its host. */
  datatype Found = Found(ip: string, alias: string, host: string)

  /** One discovery round, in the iteration order of its result dictionary. */
  type Round = seq<Found>

  /** The answer to the k-th discovery call. */
  function RoundAt(discovery: seq<Round>, k: nat): Round
  {
    if k < |discovery| then discovery[k] else []
  }

  /** The alias test: the two aliases agree once both are lower-cased. */
  predicate Matches(d: Found, alias: string)
  {
    Lower(d.alias) == Lower(alias)
  }

  /** The alias test ignores ASCII case and nothing else: the aliases have the same
      length and agree letter by letter once lower-cased, and lower-casing the
      searched alias beforehand changes no outcome. */
  lemma MatchesIgnoresCase(d: Found, alias: string)
    ensures Matches(d, alias) <==>
      (|d.alias| == |alias| && forall i :: 0 <= i < |alias| ==> LowerChar(d.alias[i]) == LowerChar(alias[i]))
    ensures Matches(d, alias) <==> Matches(d, Lower(alias))
  {
    if |d.alias| == |alias| && forall i :: 0 <= i < |alias| ==> LowerChar(d.alias[i]) == LowerChar(alias[i]) {
      assert Lower(d.alias) == Lower(alias);
    }
    assert Lower(Lower(alias)) == Lower(alias);
  }

  /** The index of the first device, from i on in iteration order, whose alias matches. */
  function FirstMatch(round: Round, alias: string, i: nat): (r: Option<nat>)
    requires i <= |round|
    ensures r.Some? ==> i <= r.value < |round| && Matches(round[r.value], alias)
    ensures r.Some? ==> forall j :: i <= j < r.value ==> !Matches(round[j], alias)
    ensures r.None? ==> forall j :: i <= j < |round| ==> !Matches(round[j], alias)
    decreases |round| - i
  {
    if i == |round| then None
    else if Matches(round[i], alias) then Some(i)
    else FirstMatch(round, alias, i + 1)
  }

  /** No device of the k-th round matches the alias. */
  predicate NoMatchIn(discovery: seq<Round>, alias: string, k: nat)
  {
    FirstMatch(RoundAt(discovery, k), alias, 0).None?
  }

  /** The outcome of an alias search: the host found, and how many discovery calls it made. */
  datatype Search = Search(host: Option<string>, rounds: nat)

  /** The alias search from round k on, with a budget of rounds: stop at the first
      round that has a match and take the host of its first matching device. */
  function SearchFrom(discovery: seq<Round>, alias: string, k: nat, budget: nat): (r: Search)
    requires k <= budget
    ensures k <= r.rounds <= budget
    decreases budget - k
  {
    if k == budget then Search(None, k)
    else match FirstMatch(RoundAt(discovery, k), alias, 0)
      case Some(j) => Search(Some(RoundAt(discovery, k)[j].host), k + 1)
      case None => SearchFrom(discovery, alias, k + 1, budget)
  }

  function AliasSearch(discovery: seq<Round>, alias: string, budget: nat): Search
  {
    SearchFrom(discovery, alias, 0, budget)
  }

  /** No round from lo up to (not including) hi has a match. */
  predicate NoMatchBetween(discovery: seq<Round>, alias: string, lo: nat, hi: nat)
  {
    forall m :: lo <= m < hi ==> NoMatchIn(discovery, alias, m)
  }

  /** The search issued at least one round, the last one it issued has a match, and
      the host found is that of the round's first matching device. */
  predicate HostFromLastRound(discovery: seq<Round>, alias: string, r: Search)
  {
    r.rounds > 0 &&
    var fm := FirstMatch(RoundAt(discovery, r.rounds - 1), alias, 0);
    fm.Some? && r.host == Some(RoundAt(discovery, r.rounds - 1)[fm.value].host)
  }

  /** A search from round k on that finds a host got it from the first round from k
      with a match, and from that round's first matching device. */
  lemma {:induction false} SearchFromFound(discovery: seq<Round>, alias: string, k: nat, budget: nat)
    requires k <= budget
    requires SearchFrom(discovery, alias, k, budget).host.Some?
    ensures k < SearchFrom(discovery, alias, k, budget).rounds
    ensures HostFromLastRound(discovery, alias, SearchFrom(discovery, alias, k, budget))
    ensures NoMatchBetween(discovery, alias, k, SearchFrom(discovery, alias, k, budget).rounds - 1)
    decreases budget - k
  {
    if NoMatchIn(discovery, alias, k) {
      SearchFromFound(discovery, alias, k + 1, budget);
    }
  }

  /** A search from round k on finds no host exactly when no budgeted round from k
      matches, and it has then used its whole budget. */
  lemma {:induction false} SearchFromMissing(discovery: seq<Round>, alias: string, k: nat, budget: nat)
    requires k <= budget
    ensures SearchFrom(discovery, alias, k, budget).host.None? <==> NoMatchBetween(discovery, alias, k, budget)
    ensures SearchFrom(discovery, alias, k, budget).host.None? ==> SearchFrom(discovery, alias, k, budget).rounds == budget
    decreases budget - k
  {
    if k < budget {
      if NoMatchIn(discovery, alias, k) {
        SearchFromMissing(discovery, alias, k + 1, budget);
      } else {
        assert !NoMatchBetween(discovery, alias, k, budget);
      }
    }
  }

  /** The alias search with a budget of rounds, as seen from outside: it never asks
      for more rounds than the budget, a found host comes from the first round that
      has a match (and no round is issued after it), and it reports no host exactly
      when none of the budgeted rounds matched, having then used all of them. */
  lemma AliasSearchSpec(discovery: seq<Round>, alias: string, budget: nat)
    ensures var r := AliasSearch(discovery, alias, budget);
      r.rounds <= budget &&
      (r.host.Some? ==> HostFromLastRound(discovery, alias, r) && NoMatchBetween(discovery, alias, 0, r.rounds - 1)) &&
      (r.host.None? <==> NoMatchBetween(discovery, alias, 0, budget)) &&
      (r.host.None? ==> r.rounds == budget)
  {
    if AliasSearch(discovery, alias, budget).host.Some? {
      SearchFromFound(discovery, alias, 0, budget);
    }
    SearchFromMissing(discovery, alias, 0, budget);
  }

  /** The number of values range(lo, hi) yields. */
  function RangeLength(lo: int, hi: int): (n: nat)
    ensures lo < hi ==> n == hi - lo
    ensures hi <= lo ==> n == 0
  {
    if lo < hi then hi - lo else 0
  }

  /** find_host_from_alias as written: `for attempt in range(1, attempts)`, one discovery
      call per pass, and the host of the first device whose alias matches. Returns the
      host found and the number of discovery calls made. */
  method FindHostFromAlias(discovery: seq<Round>, alias: string, attempts: int) returns (host: Option<string>, rounds: nat)
    ensures Search(host, rounds) == AliasSearch(discovery, alias, RangeLength(1, attempts))
  {
    ghost var budget := RangeLength(1, attempts);
    rounds := 0;
    var attempt := 1;
    while attempt < attempts
      invariant 1 <= attempt && rounds == attempt - 1 && rounds <= budget
      invariant AliasSearch(discovery, alias, budget) == SearchFrom(discovery, alias, rounds, budget)
    {
      var found := RoundAt(discovery, rounds);
      rounds := rounds + 1;
      var i := 0;
      while i < |found|
        invariant 0 <= i <= |found|
        invariant forall j :: 0 <= j < i ==> !Matches(found[j], alias)
      {
        if Lower(found[i].alias) == Lower(alias) {
          assert FirstMatch(found, alias, 0) == Some(i);
          return Some(found[i].host), rounds;
        }
        i := i + 1;
      }
      attempt := attempt + 1;
    }
    return None, rounds;
  }

  /** find_host_from_alias with the loop bound it evidently intends,
      `range(1, attempts + 1)`: one discovery call for each of the attempts it
      announces. */
  method FindHostFromAliasFixed(discovery: seq<Round>, alias: string, attempts: int) returns (host: Option<string>, rounds: nat)
    ensures Search(host, rounds) == AliasSearch(discovery, alias, RangeLength(1, attempts + 1))
  {
    ghost var budget := RangeLength(1, attempts + 1);
    rounds := 0;
    var attempt := 1;
    while attempt <= attempts
      invariant 1 <= attempt && rounds == attempt - 1 && rounds <= budget
      invariant AliasSearch(discovery, alias, budget) == SearchFrom(discovery, alias, rounds, budget)
    {
      var found := RoundAt(discovery, rounds);
      rounds := rounds + 1;
      var i := 0;
      while i < |found|
        invariant 0 <= i <= |found|
        invariant forall j :: 0 <= j < i ==> !Matches(found[j], alias)
      {
        if Lower(found[i].alias) == Lower(alias) {
          assert FirstMatch(found, alias, 0) == Some(i);
          return Some(found[i].host), rounds;
        }
        i := i + 1;
      }
      attempt := attempt + 1;
    }
    return None, rounds;
  }

  /** As written, the lookup asks for attempts - 1 rounds at most, none at all when
      attempts <= 1, and exactly attempts - 1 when no round matches. */
  lemma AsWrittenRoundCount(discovery: seq<Round>, alias: string, attempts: int)
    ensures AliasSearch(discovery, alias, RangeLength(1, attempts)).rounds <= if attempts > 1 then attempts - 1 else 0
    ensures attempts <= 1 ==> AliasSearch(discovery, alias, RangeLength(1, attempts)) == Search(None, 0)
    ensures NoMatchBetween(discovery, alias, 0, RangeLength(1, attempts)) ==>
      AliasSearch(discovery, alias, RangeLength(1, attempts)) == Search(None, RangeLength(1, attempts))
  {
    AliasSearchSpec(discovery, alias, RangeLength(1, attempts));
  }

  /** Corrected, the lookup asks for exactly `attempts` rounds when no round matches. */
  lemma FixedRoundCount(discovery: seq<Round>, alias: string, attempts: nat)
    ensures AliasSearch(discovery, alias, RangeLength(1, attempts + 1)).rounds <= attempts
    ensures NoMatchBetween(discovery, alias, 0, attempts) ==>
      AliasSearch(discovery, alias, RangeLength(1, attempts + 1)) == Search(None, attempts)
  {
    AliasSearchSpec(discovery, alias, RangeLength(1, attempts + 1));
  }

  const LivingRoom := Found("10.0.0.5", "Living Room", "10.0.0.5")
  const Bedroom := Found("10.0.0.9", "Bedroom", "10.0.0.9")

  /** With the default of three attempts, a device that first answers in the third
      round is reported missing as written, after two rounds, and found by the
      corrected loop. */
  lemma AsWrittenMissesThirdAttempt()
    ensures AliasSearch([[], [], [LivingRoom]], "living room", RangeLength(1, 3)) == Search(None, 2)
    ensures AliasSearch([[], [], [LivingRoom]], "living room", RangeLength(1, 3 + 1)) == Search(Some("10.0.0.5"), 3)
  {
    assert Lower("Living Room") == Lower("living room");
    assert FirstMatch([LivingRoom], "living room", 0) == Some(0);
  }

  /** Against a network of two devices that answer every round, the corrected lookup
      finds "living room" in its first round, and reports "nobody" missing after
      exactly two rounds when given two attempts. */
  lemma NetworkScenarios(network: Round)
    requires network == [LivingRoom, Bedroom]
    ensures AliasSearch([network, network, network], "living room", RangeLength(1, 3 + 1)) == Search(Some("10.0.0.5"), 1)
    ensures AliasSearch([network, network], "nobody", RangeLength(1, 2 + 1)) == Search(None, 2)
  {
    assert Lower("Living Room") == Lower("living room");
    assert FirstMatch(network, "living room", 0) == Some(0);
    assert Lower("Living Room")[0] != Lower("nobody")[0];
    assert Lower("Bedroom")[0] != Lower("nobody")[0];
    assert FirstMatch(network, "nobody", 0) == None;
  }

  // ---------------------------------------------------------------------------
  // Choosing the device a command addresses

  /** The options and the subcommand the tool was invoked with. */
  datatype Invocation = Invocation(
    subcommand: Option<string>,
    ip: Option<string>,
    host: Option<string>,
    alias: Option<string>,
    bulb: bool,
    plug: bool,
    strip: bool)

  /** The device handle the command will use: detected by a single-host discovery,
      or constructed directly with the kind the flags give. */
  datatype DeviceChoice = AutoDetected(host: string) | BulbAt(host: string) | PlugAt(host: string) | StripAt(host: string)

  /** How resolution ends. */
  datatype Resolution =
    | DiscoverCommand                                // the discover subcommand resolves nothing
    | AliasNotFound                                  // the alias lookup found no host; no device is made
    | FullDiscovery                                  // no host at all: the discover command runs
    | Resolved(device: DeviceChoice, showState: bool) // showState: the state command runs on it

  /** The discovery calls resolution makes, in order. */
  datatype Call = AliasRound | DiscoverSingle(host: string) | DiscoverAll

  /** The number of attempts the tool passes to the alias lookup (its default). */
  const DefaultAttempts := 3

  function AliasRounds(n: nat): (r: seq<Call>)
    ensures |r| == n && forall i :: 0 <= i < n ==> r[i] == AliasRound
  {
    seq(n, _ => AliasRound)
  }

  /** The host given on the command line: --host, or --ip when --host is absent. */
  function GivenHost(inv: Invocation): (r: Option<string>)
    ensures inv.host.Some? ==> r == inv.host
    ensures r.Some? <==> inv.host.Some? || inv.ip.Some?
    ensures r.Some? ==> r == inv.host || r == inv.ip
  {
    if inv.host.None? then inv.ip else inv.host
  }

  /** The alias lookup runs when an alias is given and no host was given by either option. */
  predicate RunsAliasLookup(inv: Invocation)
  {
    inv.subcommand != Some("discover") && GivenHost(inv).None? && inv.alias.Some?
  }

  /** The rounds the alias lookup may use with the default attempts: two with the loop
      as written, three with the corrected one. */
  function LookupBudget(corrected: bool): (n: nat)
    ensures n == if corrected then DefaultAttempts else DefaultAttempts - 1
  {
    if corrected then RangeLength(1, DefaultAttempts + 1) else RangeLength(1, DefaultAttempts)
  }

  /** The lookup the tool performs for an invocation, with the loop as written or corrected. */
  function LookupFor(inv: Invocation, discovery: seq<Round>, corrected: bool): Search
    requires RunsAliasLookup(inv)
  {
    AliasSearch(discovery, inv.alias.value, LookupBudget(corrected))
  }

  /** `if host:` — a host counts as found only when it is a non-empty string. */
  predicate HostTruthy(host: Option<string>)
  {
    host.Some? && host.value != ""
  }

  /** The body of the command group: which device, if any, the command addresses and
      which discovery calls it takes to get there. With corrected false the alias
      lookup is the loop as written (two rounds), with corrected true the corrected
      loop (three rounds). */
  method Resolve(inv: Invocation, discovery: seq<Round>, corrected: bool) returns (res: Resolution, calls: seq<Call>)
    ensures res.DiscoverCommand? <==> inv.subcommand == Some("discover")
    ensures res.DiscoverCommand? ==> calls == []
    ensures res.AliasNotFound? <==> RunsAliasLookup(inv) && !HostTruthy(LookupFor(inv, discovery, corrected).host)
    ensures res.FullDiscovery? <==> inv.subcommand != Some("discover") && GivenHost(inv).None? && inv.alias.None?
    ensures res.Resolved? ==> (
      res.device.host == if GivenHost(inv).Some? then GivenHost(inv).value else LookupFor(inv, discovery, corrected).host.value)
    ensures res.Resolved? ==> (res.device.AutoDetected? <==> !inv.bulb && !inv.plug && !inv.strip)
    ensures res.Resolved? ==> (res.device.BulbAt? <==> inv.bulb)
    ensures res.Resolved? ==> (res.device.PlugAt? <==> !inv.bulb && inv.plug)
    ensures res.Resolved? ==> (res.device.StripAt? <==> !inv.bulb && !inv.plug && inv.strip)
    ensures res.Resolved? ==> res.showState == inv.subcommand.None?
    ensures calls ==
      AliasRounds(if RunsAliasLookup(inv) then LookupFor(inv, discovery, corrected).rounds else 0) +
      (if res.Resolved? && res.device.AutoDetected? then [DiscoverSingle(res.device.host)] else []) +
      (if res.FullDiscovery? then [DiscoverAll] else [])
  {
    calls := [];
    if inv.subcommand == Some("discover") {
      return DiscoverCommand, calls;
    }
    var host := inv.host;
    if inv.ip.Some? && host.None? {
      host := inv.ip;
    }
    if inv.alias.Some? && host.None? {
      var rounds;
      if corrected {
        host, rounds := FindHostFromAliasFixed(discovery, inv.alias.value, DefaultAttempts);
      } else {
        host, rounds := FindHostFromAlias(discovery, inv.alias.value, DefaultAttempts);
      }
      calls := AliasRounds(rounds);
      if !HostTruthy(host) {
        return AliasNotFound, calls;
      }
    }
    if host.None? {
      return FullDiscovery, calls + [DiscoverAll];
    }
    var dev: DeviceChoice;
    if !inv.bulb && !inv.plug && !inv.strip {
      dev := AutoDetected(host.value);
      calls := calls + [DiscoverSingle(host.value)];
    } else if inv.bulb {
      dev := BulbAt(host.value);
    } else if inv.plug {
      dev := PlugAt(host.value);
    } else {
      // One of the three flags is set, so this is --strip: the final
      // "Unable to detect type" branch of the command group is never taken.
      assert inv.strip;
      dev := StripAt(host.value);
    }
    res := Resolved(dev, inv.subcommand.None?);
  }

  /** `--alias "living room"` against a device that first answers in the third round:
      as written the lookup gives up after two rounds, so the command stops with no
      device; corrected it finds the host in the third round. */
  lemma ResolveMissesThirdRound(inv: Invocation)
    requires inv == Invocation(None, None, None, Some("living room"), false, false, false)
    ensures RunsAliasLookup(inv)
    ensures LookupFor(inv, [[], [], [LivingRoom]], false) == Search(None, 2)
    ensures LookupFor(inv, [[], [], [LivingRoom]], true) == Search(Some("10.0.0.5"), 3)
  {
    AsWrittenMissesThirdAttempt();
  }
}

/**
 * The browser's server list (the `Servers` component): the client's own map-prefix
 * table, the filter-and-sort pipeline `applyFilters`, the filter toggles, the reset,
 * and the way a fetch fills the filter dictionaries.
 *
 * A filter dictionary is a `map<string, bool>`; a key that is absent reads as
 * `undefined`, which is neither `=== true` nor truthy. Player counts and the two
 * bounds are the results of `parseInt`, with `None` for NaN.
 */
module ServerBrowser {
  import opened JsText
  import opened Seqs
  import opened Enrichment

  /** The client's `GAMEMODE_MAP`: the gamemode of a prefix written with its trailing '_'.
      `None` is a key the object does not have. */
  function ClientTable(key: string): Option<string> {
    match key
    case "cp_" => Some("Control Points")
    case "pl_" => Some("Payload")
    case "plr_" => Some("Payload Race")
    case "ctf_" => Some("Capture the Flag")
    case "koth_" => Some("King of the Hill")
    case "arena_" => Some("Arena")
    case "mvm_" => Some("Mann vs Machine")
    case "sd_" => Some("Special Delivery")
    case "tc_" => Some("Territorial Control")
    case "tr_" => Some("Training")
    case "pd_" => Some("Player Destruction")
    case "pass_" => Some("PASS Time")
    case "rd_" => Some("Robot Destruction")
    case "mge_" => Some("MGE")
    case "jump_" => Some("Jump")
    case "trade_" => Some("Trade")
    case "achievement_" => Some("Achievement")
    case _ => None
  }

  /** `GAMEMODE_MAP[map.split('_')[0] + '_'] || 'Other'`. */
  function ClientGamemode(mapName: string): (gamemode: string)
    ensures gamemode != ""
  {
    ClientTable(BeforeFirst(mapName, '_') + "_").GetOr("Other")
  }

  /** Every key of the server's table, with '_' appended, is a key of the client's table
      with the same gamemode. */
  lemma ServerKeysInClientTable()
    ensures forall p :: p in ServerGamemodeTable ==> ClientTable(p + "_") == Some(ServerGamemodeTable[p])
  {
    forall p | p in ServerGamemodeTable
      ensures ClientTable(p + "_") == Some(ServerGamemodeTable[p])
    {
      if p == "cp" {
        assert p + "_" == "cp_" && ClientTable("cp_") == Some("Control Points");
      } else if p == "pl" {
        assert p + "_" == "pl_" && ClientTable("pl_") == Some("Payload");
      } else if p == "plr" {
        assert p + "_" == "plr_" && ClientTable("plr_") == Some("Payload Race");
      } else if p == "ctf" {
        assert p + "_" == "ctf_" && ClientTable("ctf_") == Some("Capture the Flag");
      } else if p == "koth" {
        assert p + "_" == "koth_" && ClientTable("koth_") == Some("King of the Hill");
      } else if p == "arena" {
        assert p + "_" == "arena_" && ClientTable("arena_") == Some("Arena");
      } else if p == "mvm" {
        assert p + "_" == "mvm_" && ClientTable("mvm_") == Some("Mann vs Machine");
      } else if p == "sd" {
        assert p + "_" == "sd_" && ClientTable("sd_") == Some("Special Delivery");
      } else if p == "tc" {
        assert p + "_" == "tc_" && ClientTable("tc_") == Some("Territorial Control");
      } else if p == "tr" {
        assert p + "_" == "tr_" && ClientTable("tr_") == Some("Training");
      } else if p == "pd" {
        assert p + "_" == "pd_" && ClientTable("pd_") == Some("Player Destruction");
      } else if p == "pass" {
        assert p + "_" == "pass_" && ClientTable("pass_") == Some("PASS Time");
      } else if p == "rd" {
        assert p + "_" == "rd_" && ClientTable("rd_") == Some("Robot Destruction");
      } else if p == "mge" {
        assert p + "_" == "mge_" && ClientTable("mge_") == Some("MGE");
      } else if p == "jump" {
        assert p + "_" == "jump_" && ClientTable("jump_") == Some("Jump");
      } else if p == "trade" {
        assert p + "_" == "trade_" && ClientTable("trade_") == Some("Trade");
      }
    }
  }

  /** Every key of the client's table is a key of the server's table, or "achievement",
      followed by '_'. */
  lemma ClientKeyFromServerTable(key: string)
    requires ClientTable(key).Some?
    ensures |key| > 0 && key[|key| - 1] == '_'
    ensures key[..|key| - 1] in ServerGamemodeTable || key[..|key| - 1] == "achievement"
  {
    assert "cp_"[..2] == "cp";
    assert "pl_"[..2] == "pl";
    assert "plr_"[..3] == "plr";
    assert "ctf_"[..3] == "ctf";
    assert "koth_"[..4] == "koth";
    assert "arena_"[..5] == "arena";
    assert "mvm_"[..3] == "mvm";
    assert "sd_"[..2] == "sd";
    assert "tc_"[..2] == "tc";
    assert "tr_"[..2] == "tr";
    assert "pd_"[..2] == "pd";
    assert "pass_"[..4] == "pass";
    assert "rd_"[..2] == "rd";
    assert "mge_"[..3] == "mge";
    assert "jump_"[..4] == "jump";
    assert "trade_"[..5] == "trade";
    assert "achievement_"[..11] == "achievement";
  }

  /** The client's table is the server's table with '_' appended to every key, plus "achievement_". */
  lemma ClientTableIsServerTable(prefix: string)
    ensures ClientTable(prefix + "_").Some? <==> prefix in ServerGamemodeTable || prefix == "achievement"
    ensures prefix in ServerGamemodeTable ==> ClientTable(prefix + "_") == Some(ServerGamemodeTable[prefix])
    ensures prefix == "achievement" ==> ClientTable(prefix + "_") == Some("Achievement")
  {
    ServerKeysInClientTable();
    var key := prefix + "_";
    if ClientTable(key).Some? {
      ClientKeyFromServerTable(key);
      assert key[..|key| - 1] == prefix;
    }
    if prefix == "achievement" {
      assert key == "achievement_";
    }
  }

  /** For a map the two sides agree on the gamemode except that only the client knows
      "achievement_" maps. */
  lemma ClientAgreesWithServer(mapName: string)
    requires mapName != ""
    ensures ClientGamemode(mapName) ==
              if BeforeFirst(mapName, '_') == "achievement" then "Achievement" else ServerGamemode(Some(mapName))
  {
    ClientTableIsServerTable(BeforeFirst(mapName, '_'));
    ServerGamemodeByTable(mapName);
  }

  /** A map name without '_' is looked up whole, with '_' appended. */
  lemma NoPrefixSeparator(mapName: string)
    requires '_' !in mapName
    ensures ClientGamemode(mapName) == ClientTable(mapName + "_").GetOr("Other")
  {
    BeforeFirstAbsent(mapName, '_');
  }

  /** "Unknown Map" has no '_', and "Unknown Map_" is not a key of the client's table. */
  lemma UnknownMapKey()
    ensures '_' !in UnknownMapName && ClientTable(UnknownMapName + "_") == None
  {
    assert UnknownMapName + "_" == "Unknown Map_";
  }

  /** A server listed without a map reaches the client as "Unknown Map" with gamemode
      "Unknown" (`BuildRecord`); the client files it under "Other". */
  lemma UnknownMapIsOther()
    ensures ClientGamemode(UnknownMapName) == "Other"
  {
    UnknownMapKey();
    NoPrefixSeparator(UnknownMapName);
  }

  // ---------------------------------------------------------------------------
  // The filter state and the three tests of `applyFilters`.
  // ---------------------------------------------------------------------------

  /** `playerSort`: 'none', 'asc' or 'desc'. */
  datatype PlayerSort = NoSort | Ascending | Descending

  datatype Filters = Filters(
    regionFilters: map<string, bool>,
    gamemodeFilters: map<string, bool>,
    playerSort: PlayerSort,
    minPlayers: Option<int>,
    maxPlayers: Option<int>)

  /** `dict[key] === true`. */
  predicate Selected(dict: map<string, bool>, key: string) {
    key in dict && dict[key]
  }

  predicate RegionPasses(f: Filters, s: ServerRecord) {
    Selected(f.regionFilters, s.region)
  }

  /** A server without a map always passes; otherwise its client gamemode must be selected. */
  predicate GamemodePasses(f: Filters, s: ServerRecord) {
    s.mapName == "" || Selected(f.gamemodeFilters, ClientGamemode(s.mapName))
  }

  /** `parseInt(server.players.split('/')[0])`. */
  function PlayerCount(s: ServerRecord): Option<int> {
    ParseInt(BeforeFirst(s.players, '/'))
  }

  /** The client reads back the player count the server wrote into a record, NaN for an absent one. */
  lemma PlayerCountOfRecord(raw: RawServer)
    requires HasValidAddr(raw)
    ensures PlayerCount(BuildRecord(raw)) == raw.players
  {
    PlayersTextParsesBack(raw.players, raw.maxPlayers);
  }

  /** Both bounds are inclusive; a NaN count or bound fails every comparison. */
  predicate PlayersPass(f: Filters, s: ServerRecord) {
    var n := PlayerCount(s);
    n.Some? && f.minPlayers.Some? && f.maxPlayers.Some?
    && f.minPlayers.value <= n.value <= f.maxPlayers.value
  }

  predicate Passes(f: Filters, s: ServerRecord) {
    RegionPasses(f, s) && GamemodePasses(f, s) && PlayersPass(f, s)
  }

  function RegionTest(f: Filters): ServerRecord -> bool { s => RegionPasses(f, s) }
  function GamemodeTest(f: Filters): ServerRecord -> bool { s => GamemodePasses(f, s) }
  function PlayersTest(f: Filters): ServerRecord -> bool { s => PlayersPass(f, s) }
  function PassesTest(f: Filters): ServerRecord -> bool { s => Passes(f, s) }

  /** The servers `applyFilters` keeps, in the order of its input. */
  function Filtered(list: seq<ServerRecord>, f: Filters): seq<ServerRecord> {
    if list == [] then []
    else (if Passes(f, list[0]) then [list[0]] else []) + Filtered(list[1..], f)
  }

  /** `Filtered` is the single `filter` with the combined test. */
  lemma {:induction false} FilteredIsKeepIf(list: seq<ServerRecord>, f: Filters)
    ensures Filtered(list, f) == KeepIf(list, PassesTest(f))
  {
    if list != [] {
      FilteredIsKeepIf(list[1..], f);
    }
  }

  /** A server is shown exactly when it is in the list and passes all three tests. */
  lemma FilteredExactly(list: seq<ServerRecord>, f: Filters, s: ServerRecord)
    ensures s in Filtered(list, f) <==> s in list && Passes(f, s)
  {
    FilteredIsKeepIf(list, f);
    var r := Filtered(list, f);
    if s in r {
      var k :| 0 <= k < |r| && r[k] == s;
    }
    if s in list && Passes(f, s) {
      var k :| 0 <= k < |list| && list[k] == s;
    }
  }

  /** The shown servers are the input less some servers, in the input's order. */
  lemma FilteredIsSubsequence(list: seq<ServerRecord>, f: Filters)
    ensures IsSubsequence(Filtered(list, f), list)
    ensures multiset(Filtered(list, f)) <= multiset(list)
    ensures forall s :: s in list ==> multiset(Filtered(list, f))[s] == if Passes(f, s) then multiset(list)[s] else 0
  {
    FilteredIsKeepIf(list, f);
    KeepIfIsSubsequence(list, PassesTest(f));
    forall s | s in list
      ensures multiset(Filtered(list, f))[s] == if Passes(f, s) then multiset(list)[s] else 0
    {
      KeepIfCounts(list, PassesTest(f), s);
    }
  }

  /** With an empty region dictionary nothing is shown. */
  lemma NoRegionSelectedShowsNothing(list: seq<ServerRecord>, f: Filters)
    requires f.regionFilters == map[]
    ensures Filtered(list, f) == []
  {
    FilteredIsKeepIf(list, f);
    KeepIfNone(list, PassesTest(f));
  }

  /** The three filter steps one after the other keep what the combined test keeps. */
  lemma FilterStepsCompose(list: seq<ServerRecord>, f: Filters)
    ensures KeepIf(KeepIf(KeepIf(list, RegionTest(f)), GamemodeTest(f)), PlayersTest(f)) == Filtered(list, f)
  {
    KeepIfTwice(list, RegionTest(f), GamemodeTest(f));
    KeepIfTwice(list, Both(RegionTest(f), GamemodeTest(f)), PlayersTest(f));
    KeepIfSameTest(list, Both(Both(RegionTest(f), GamemodeTest(f)), PlayersTest(f)), PassesTest(f));
    FilteredIsKeepIf(list, f);
  }

  // ---------------------------------------------------------------------------
  // Sorting by player count, in place.
  // ---------------------------------------------------------------------------

  /** The count the comparator reads; every server that reaches the sort has one. */
  function SortKey(s: ServerRecord): int {
    PlayerCount(s).GetOr(0)
  }

  /** `x` may come before `y`: ascending in `key`, or descending. */
  predicate InOrder(x: ServerRecord, y: ServerRecord, key: ServerRecord -> int, descending: bool) {
    if descending then key(x) >= key(y) else key(x) <= key(y)
  }

  predicate SortedBy(s: seq<ServerRecord>, key: ServerRecord -> int, descending: bool) {
    forall i, j :: 0 <= i < j < |s| ==> InOrder(s[i], s[j], key, descending)
  }

  /** One pass of the insertion sort: `a[i]` moves down past the elements that must follow it. */
  method InsertLast(a: array<ServerRecord>, i: nat, key: ServerRecord -> int, descending: bool)
    requires i < a.Length
    requires forall x, y :: 0 <= x < y < i ==> InOrder(a[x], a[y], key, descending)
    modifies a
    ensures forall x, y :: 0 <= x < y <= i ==> InOrder(a[x], a[y], key, descending)
    ensures multiset(a[..]) == multiset(old(a[..]))
  {
    var j := i;
    while j > 0 && !InOrder(a[j - 1], a[j], key, descending)
      invariant 0 <= j <= i
      invariant forall x, y :: 0 <= x < y <= i && x != j && y != j ==> InOrder(a[x], a[y], key, descending)
      invariant forall x, y :: 0 <= x < j < y <= i ==> InOrder(a[x], a[y], key, descending)
      invariant forall y :: j < y <= i ==> InOrder(a[j], a[y], key, descending)
      invariant multiset(a[..]) == multiset(old(a[..]))
    {
      a[j - 1], a[j] := a[j], a[j - 1];
      j := j - 1;
    }
  }

  /** `filtered.sort(...)` with the comparator "a - b" (ascending) or "b - a" (descending)
      on the keys. */
  method SortByKey(a: array<ServerRecord>, key: ServerRecord -> int, descending: bool)
    modifies a
    ensures SortedBy(a[..], key, descending)
    ensures multiset(a[..]) == multiset(old(a[..]))
  {
    var i := 0;
    while i < a.Length
      invariant i <= a.Length
      invariant forall x, y :: 0 <= x < y < i ==> InOrder(a[x], a[y], key, descending)
      invariant multiset(a[..]) == multiset(old(a[..]))
    {
      InsertLast(a, i, key, descending);
      i := i + 1;
    }
  }

  /** The sort of `applyFilters` on the array that holds `filtered`. */
  method SortInPlace(filtered: seq<ServerRecord>, descending: bool) returns (sorted: seq<ServerRecord>)
    ensures |sorted| == |filtered| && multiset(sorted) == multiset(filtered)
    ensures SortedBy(sorted, SortKey, descending)
  {
    var a := new ServerRecord[|filtered|](k requires 0 <= k < |filtered| => filtered[k]);
    assert a[..] == filtered;
    SortByKey(a, SortKey, descending);
    sorted := a[..];
  }

  /** `applyFilters(serverList)`: `serverList || servers`, the three filters, then the sort. */
  method ApplyFilters(serverList: Option<seq<ServerRecord>>, servers: seq<ServerRecord>, f: Filters)
    returns (filtered: seq<ServerRecord>)
    ensures var list := serverList.GetOr(servers);
            |filtered| == |Filtered(list, f)| && multiset(filtered) == multiset(Filtered(list, f))
            && (f.playerSort == NoSort ==> filtered == Filtered(list, f))
            && (f.playerSort != NoSort ==> SortedBy(filtered, SortKey, f.playerSort == Descending))
  {
    var listToFilter := if serverList.Some? then serverList.value else servers;
    filtered := listToFilter;
    filtered := KeepIf(filtered, RegionTest(f));
    filtered := KeepIf(filtered, GamemodeTest(f));
    filtered := KeepIf(filtered, PlayersTest(f));
    FilterStepsCompose(listToFilter, f);
    if f.playerSort != NoSort {
      filtered := SortInPlace(filtered, f.playerSort != Ascending);
    }
  }

  // ---------------------------------------------------------------------------
  // The filter dictionaries.
  // ---------------------------------------------------------------------------

  /** `{...prev, [key]: !prev[key]}`. */
  function Toggled(dict: map<string, bool>, key: string): (r: map<string, bool>)
    ensures key in r && (Selected(r, key) <==> !Selected(dict, key))
    ensures forall k :: k != key ==> (k in r <==> k in dict)
    ensures forall k :: k != key && k in dict ==> r[k] == dict[k]
  {
    dict[key := !Selected(dict, key)]
  }

  /** Toggling twice gives back the same selection. */
  lemma ToggleTwice(dict: map<string, bool>, key: string, k: string)
    ensures Selected(Toggled(Toggled(dict, key), key), k) == Selected(dict, k)
  {
  }

  /** Toggling a region flips whether the servers of that region pass and no other server's. */
  lemma ToggleRegionFlipsOnlyThatRegion(f: Filters, region: string, s: ServerRecord)
    ensures var g := f.(regionFilters := Toggled(f.regionFilters, region));
            RegionPasses(g, s) == (if s.region == region then !RegionPasses(f, s) else RegionPasses(f, s))
  {
  }

  /** The regions of a list of servers, without "". */
  function RegionOptions(s: seq<ServerRecord>): set<string> {
    set i | 0 <= i < |s| && s[i].region != "" :: s[i].region
  }

  /** The client gamemodes of the servers that have a map. */
  function GamemodeOptions(s: seq<ServerRecord>): set<string> {
    set i | 0 <= i < |s| && s[i].mapName != "" :: ClientGamemode(s[i].mapName)
  }

  /** A dictionary with every key of `keys` set to `true`. */
  function AllSelected(keys: set<string>): map<string, bool> {
    map k | k in keys :: true
  }

  /** Exactly the keys of `keys` are selected, and the dictionary holds no other key. */
  lemma AllSelectedExactly(keys: set<string>, k: string)
    ensures Selected(AllSelected(keys), k) <==> k in keys
    ensures AllSelected(keys).Keys == keys
  {
  }

  lemma AllSelectedAdd(keys: set<string>, k: string)
    ensures AllSelected(keys + {k}) == AllSelected(keys)[k := true]
  {
  }

  lemma OptionsGrow(s: seq<ServerRecord>, i: nat)
    requires i < |s|
    ensures RegionOptions(s[..i + 1]) == RegionOptions(s[..i]) + (if s[i].region != "" then {s[i].region} else {})
    ensures GamemodeOptions(s[..i + 1]) ==
              GamemodeOptions(s[..i]) + (if s[i].mapName != "" then {ClientGamemode(s[i].mapName)} else {})
  {
    var t := s[..i + 1];
    assert forall j :: 0 <= j < i ==> t[j] == s[..i][j];
  }

  /** The `forEach` that fills `regions` and `gamemodes` (and `allRegions`, `allGamemodes`). */
  method CollectFilterOptions(serverData: seq<ServerRecord>) returns (regions: map<string, bool>, gamemodes: map<string, bool>)
    ensures regions == AllSelected(RegionOptions(serverData))
    ensures gamemodes == AllSelected(GamemodeOptions(serverData))
  {
    regions, gamemodes := map[], map[];
    var i := 0;
    while i < |serverData|
      invariant i <= |serverData|
      invariant regions == AllSelected(RegionOptions(serverData[..i]))
      invariant gamemodes == AllSelected(GamemodeOptions(serverData[..i]))
    {
      var server := serverData[i];
      OptionsGrow(serverData, i);
      if server.region != "" {
        AllSelectedAdd(RegionOptions(serverData[..i]), server.region);
        regions := regions[server.region := true];
      }
      if server.mapName != "" {
        var gamemode := ClientGamemode(server.mapName);
        AllSelectedAdd(GamemodeOptions(serverData[..i]), gamemode);
        gamemodes := gamemodes[gamemode := true];
      }
      i := i + 1;
    }
    assert serverData[..i] == serverData;
  }

  /** After a reset, a server passes the region and gamemode tests exactly when it has a
      region: every region and every gamemode of the list is selected. */
  lemma ResetSelectsEveryServer(servers: seq<ServerRecord>, k: nat)
    requires k < |servers|
    ensures var f := ResetState(servers);
            (RegionPasses(f, servers[k]) <==> servers[k].region != "") && GamemodePasses(f, servers[k])
  {
    AllSelectedExactly(RegionOptions(servers), servers[k].region);
    if servers[k].mapName != "" {
      AllSelectedExactly(GamemodeOptions(servers), ClientGamemode(servers[k].mapName));
    }
  }

  /** The filters `resetFilters` sets. */
  function ResetState(servers: seq<ServerRecord>): Filters {
    Filters(AllSelected(RegionOptions(servers)), AllSelected(GamemodeOptions(servers)), NoSort, Some(0), Some(32))
  }

  /** A server has a region and between 0 and 32 players. */
  predicate ShownAfterReset(s: ServerRecord) {
    s.region != "" && PlayerCount(s).Some? && 0 <= PlayerCount(s).value <= 32
  }

  /** After a reset the list shows, in order, every server that has a region and 0 to 32 players. */
  lemma ResetShowsAllInRange(servers: seq<ServerRecord>)
    ensures Filtered(servers, ResetState(servers)) == KeepIf(servers, ShownAfterReset)
  {
    var f := ResetState(servers);
    forall k | 0 <= k < |servers|
      ensures PassesTest(f)(servers[k]) == ShownAfterReset(servers[k])
    {
      ResetSelectsEveryServer(servers, k);
    }
    KeepIfSameTest(servers, PassesTest(f), ShownAfterReset);
    FilteredIsKeepIf(servers, f);
  }

  /** The query string of the client's request: `?refresh=true` only for a forced refresh. */
  function RefreshParam(forceRefresh: bool): (refresh: Option<string>)
    ensures refresh == Some("true") <==> forceRefresh
  {
    if forceRefresh then Some("true") else None
  }

  /** The three places that call `fetchServers`: the mount effect passes `false`, the refresh
      button `true`, and the "Try Again" button hands it the click event itself. */
  datatype FetchCaller = Mount | RefreshButton | RetryButton

  /** The `forceRefresh` each caller gives: an event object is truthy, so it forces a refresh. */
  function ForceRefreshOf(caller: FetchCaller): (forceRefresh: bool)
    ensures forceRefresh <==> !caller.Mount?
  {
    match caller
    case Mount => false
    case RefreshButton => true
    case RetryButton => true
  }

  /** Only the first load skips `?refresh=true`; a retry after a failed load forces a refresh. */
  lemma RetryForcesRefresh()
    ensures RefreshParam(ForceRefreshOf(Mount)) == None
    ensures RefreshParam(ForceRefreshOf(RefreshButton)) == Some("true")
    ensures RefreshParam(ForceRefreshOf(RetryButton)) == Some("true")
  {
  }

  // ---------------------------------------------------------------------------
  // The component's state.
  // ---------------------------------------------------------------------------

  /** What the client's request to `/api/servers` gives: the `servers` of a 200 answer, or a
      thrown error (a 500 answer, a network failure). */
  datatype FetchOutcome = FetchFailed | Fetched(servers: seq<ServerRecord>)

  const LoadError := "Failed to load servers. Please try again later."

  class Servers {
    var loading: bool
    var servers: seq<ServerRecord>
    var filteredServers: seq<ServerRecord>
    var error: Option<string>
    var regionFilters: map<string, bool>
    var gamemodeFilters: map<string, bool>
    var playerSort: PlayerSort
    var minPlayers: Option<int>
    var maxPlayers: Option<int>

    function CurrentFilters(): Filters
      reads this
    {
      Filters(regionFilters, gamemodeFilters, playerSort, minPlayers, maxPlayers)
    }

    /** The initial state: loading, nothing fetched, no filter, descending sort, 0 to 24. */
    constructor()
      ensures loading && servers == [] && filteredServers == [] && error == None
      ensures CurrentFilters() == Filters(map[], map[], Descending, Some(0), Some(24))
    {
      loading := true;
      servers := [];
      filteredServers := [];
      error := None;
      regionFilters := map[];
      gamemodeFilters := map[];
      playerSort := Descending;
      minPlayers := Some(0);
      maxPlayers := Some(24);
    }

    /** `fetchServers`: `refresh` is the query parameter of the request it sends, `outcome` what
        that request gives. The filters the closure sees are those of the render it was made in,
        so the list shown right after the fetch is filtered with the filters from before it. */
    method FetchServers(forceRefresh: bool, outcome: FetchOutcome) returns (refresh: Option<string>)
      modifies this
      ensures refresh == RefreshParam(forceRefresh)
      ensures !loading
      ensures playerSort == old(playerSort) && minPlayers == old(minPlayers) && maxPlayers == old(maxPlayers)
      ensures outcome.FetchFailed? ==>
                error == Some(LoadError) && servers == old(servers) && filteredServers == old(filteredServers)
                && regionFilters == old(regionFilters) && gamemodeFilters == old(gamemodeFilters)
      ensures outcome.Fetched? ==>
                error == None && servers == outcome.servers
                && regionFilters == (if |old(regionFilters)| == 0 then AllSelected(RegionOptions(outcome.servers))
                                     else old(regionFilters))
                && gamemodeFilters == (if |old(gamemodeFilters)| == 0 then AllSelected(GamemodeOptions(outcome.servers))
                                       else old(gamemodeFilters))
                && multiset(filteredServers) == multiset(Filtered(outcome.servers, old(CurrentFilters())))
                && (old(playerSort) == NoSort ==> filteredServers == Filtered(outcome.servers, old(CurrentFilters())))
                && (old(playerSort) != NoSort ==> SortedBy(filteredServers, SortKey, old(playerSort) == Descending))
                && (old(regionFilters) == map[] ==> filteredServers == [])
    {
      loading := true;
      error := None;
      refresh := RefreshParam(forceRefresh);
      match outcome {
        case FetchFailed =>
          error := Some(LoadError);
        case Fetched(serverData) =>
          Load(serverData);
      }
      loading := false;
    }

    /** The success path of `fetchServers`: seed empty filter sets with every option, store the
        list and filter it against the filters read when the fetch started. */
    method Load(serverData: seq<ServerRecord>)
      modifies this
      ensures loading == old(loading) && error == old(error)
      ensures playerSort == old(playerSort) && minPlayers == old(minPlayers) && maxPlayers == old(maxPlayers)
      ensures servers == serverData
      ensures regionFilters == (if |old(regionFilters)| == 0 then AllSelected(RegionOptions(serverData))
                                else old(regionFilters))
      ensures gamemodeFilters == (if |old(gamemodeFilters)| == 0 then AllSelected(GamemodeOptions(serverData))
                                  else old(gamemodeFilters))
      ensures multiset(filteredServers) == multiset(Filtered(serverData, old(CurrentFilters())))
      ensures old(playerSort) == NoSort ==> filteredServers == Filtered(serverData, old(CurrentFilters()))
      ensures old(playerSort) != NoSort ==> SortedBy(filteredServers, SortKey, old(playerSort) == Descending)
      ensures old(regionFilters) == map[] ==> filteredServers == []
    {
      var stale, staleServers := CurrentFilters(), servers;
      var regions, gamemodes := CollectFilterOptions(serverData);
      if |regionFilters| == 0 {
        regionFilters := regions;
      }
      if |gamemodeFilters| == 0 {
        gamemodeFilters := gamemodes;
      }
      servers := serverData;
      filteredServers := ApplyFilters(Some(serverData), staleServers, stale);
      if stale.regionFilters == map[] {
        NoRegionSelectedShowsNothing(serverData, stale);
      }
    }

    /** The effect that re-applies the filters whenever they change once loading is over. */
    method FiltersEffect()
      modifies this`filteredServers
      ensures !loading && |servers| > 0 ==>
                multiset(filteredServers) == multiset(Filtered(servers, CurrentFilters()))
                && (playerSort == NoSort ==> filteredServers == Filtered(servers, CurrentFilters()))
                && (playerSort != NoSort ==> SortedBy(filteredServers, SortKey, playerSort == Descending))
      ensures loading || |servers| == 0 ==> filteredServers == old(filteredServers)
    {
      if !loading && |servers| > 0 {
        filteredServers := ApplyFilters(None, servers, CurrentFilters());
      }
    }

    method ToggleRegionFilter(region: string)
      modifies this`regionFilters
      ensures regionFilters == Toggled(old(regionFilters), region)
    {
      regionFilters := Toggled(regionFilters, region);
    }

    method ToggleGamemodeFilter(gamemode: string)
      modifies this`gamemodeFilters
      ensures gamemodeFilters == Toggled(old(gamemodeFilters), gamemode)
    {
      gamemodeFilters := Toggled(gamemodeFilters, gamemode);
    }

    /** `resetFilters`: every region and gamemode of the fetched list, no sort, 0 to 32 players. */
    method ResetFilters()
      modifies this`regionFilters, this`gamemodeFilters, this`playerSort, this`minPlayers, this`maxPlayers
      ensures CurrentFilters() == ResetState(servers)
    {
      var allRegions, allGamemodes := CollectFilterOptions(servers);
      regionFilters := allRegions;
      gamemodeFilters := allGamemodes;
      playerSort := NoSort;
      minPlayers := Some(0);
      maxPlayers := Some(32);
    }
  }
}

/**
 * The per-record enrichment of the `/api/servers` handler: one raw entry of the
 * upstream server list becomes one client-facing record, or is dropped when its
 * address is missing or has no `host:port` separator. Also the three fixed
 * placeholder records served when the upstream lists no server.
 */
module Enrichment {
  import opened JsText
  import opened Seqs
  import Regions

  /** One entry of `response.data.response.servers`; every field may be absent. */
  datatype RawServer = RawServer(
    addr: Option<string>,
    name: Option<string>,
    mapName: Option<string>,
    players: Option<int>,
    maxPlayers: Option<int>)

  /** The normalized record sent to clients. */
  datatype ServerRecord = ServerRecord(
    id: string,
    name: string,
    mapName: string,
    gamemode: string,
    players: string,
    region: string,
    address: string)

  /** The map-prefix table of the server's `switch`. */
  const ServerGamemodeTable: map<string, string> := map[
    "cp" := "Control Points", "pl" := "Payload", "plr" := "Payload Race",
    "ctf" := "Capture the Flag", "koth" := "King of the Hill", "arena" := "Arena",
    "mvm" := "Mann vs Machine", "sd" := "Special Delivery", "tc" := "Territorial Control",
    "tr" := "Training", "pd" := "Player Destruction", "pass" := "PASS Time",
    "rd" := "Robot Destruction", "mge" := "MGE", "jump" := "Jump", "trade" := "Trade"
  ]

  /** The `switch (mapPrefix)` statement. */
  function PrefixGamemode(prefix: string): (gamemode: string)
    ensures gamemode != "" && gamemode != "Unknown"
  {
    match prefix
    case "cp" => "Control Points"
    case "pl" => "Payload"
    case "plr" => "Payload Race"
    case "ctf" => "Capture the Flag"
    case "koth" => "King of the Hill"
    case "arena" => "Arena"
    case "mvm" => "Mann vs Machine"
    case "sd" => "Special Delivery"
    case "tc" => "Territorial Control"
    case "tr" => "Training"
    case "pd" => "Player Destruction"
    case "pass" => "PASS Time"
    case "rd" => "Robot Destruction"
    case "mge" => "MGE"
    case "jump" => "Jump"
    case "trade" => "Trade"
    case _ => "Other"
  }

  /** The gamemode of a raw entry: "Unknown" without a map, else the table entry of the
      text before the first '_', else "Other". */
  function ServerGamemode(mapName: Option<string>): (gamemode: string)
    ensures gamemode == "Unknown" <==> !Truthy(mapName)
  {
    if Truthy(mapName) then PrefixGamemode(BeforeFirst(mapName.value, '_')) else "Unknown"
  }

  /** For a map, the gamemode is the table's entry for the text before the first '_', or
      "Other" when the table has no such entry. */
  lemma ServerGamemodeByTable(mapName: string)
    requires mapName != ""
    ensures var prefix := BeforeFirst(mapName, '_');
            (prefix in ServerGamemodeTable ==> ServerGamemode(Some(mapName)) == ServerGamemodeTable[prefix])
            && (prefix !in ServerGamemodeTable ==> ServerGamemode(Some(mapName)) == "Other")
  {
    var prefix := BeforeFirst(mapName, '_');
    if prefix in ServerGamemodeTable {
      PrefixGamemodeListed(prefix);
    } else {
      PrefixGamemodeUnlisted(prefix);
    }
  }

  /** A prefix the `switch` lists has its table's gamemode. */
  lemma PrefixGamemodeListed(prefix: string)
    requires prefix in ServerGamemodeTable
    ensures PrefixGamemode(prefix) == ServerGamemodeTable[prefix]
  {
  }

  /** Any other prefix falls to the `default` branch. */
  lemma PrefixGamemodeUnlisted(prefix: string)
    requires prefix !in ServerGamemodeTable
    ensures PrefixGamemode(prefix) == "Other"
  {
  }

  /** `${n}` for a possibly absent number. */
  function NumberText(n: Option<int>): string {
    match n
    case None => "undefined"
    case Some(v) => IntToDecimal(v)
  }

  /** `${server.players}/${server.max_players}`. */
  function PlayersText(players: Option<int>, maxPlayers: Option<int>): string {
    NumberText(players) + "/" + NumberText(maxPlayers)
  }

  /** `server.addr && server.addr.includes(':')`. */
  predicate HasValidAddr(raw: RawServer) {
    Truthy(raw.addr) && ':' in raw.addr.value
  }

  /** No field of a record is empty. */
  predicate Populated(r: ServerRecord) {
    r.id != "" && r.name != "" && r.mapName != "" && r.gamemode != ""
    && r.players != "" && r.region != "" && r.address != ""
  }

  /** The map name a record gets when its entry has none. */
  const UnknownMapName := "Unknown Map"

  /** The object literal the enrichment closure returns for an entry with a valid address. */
  function BuildRecord(raw: RawServer): (r: ServerRecord)
    requires HasValidAddr(raw)
    ensures Populated(r)
    ensures r.id == raw.addr.value && r.address == raw.addr.value
    ensures r.name == OrElse(raw.name, "Unknown Server")
    ensures r.gamemode == ServerGamemode(raw.mapName)
    ensures r.players == PlayersText(raw.players, raw.maxPlayers)
    ensures r.region == Regions.GetRegionFromIP(BeforeFirst(raw.addr.value, ':'))
    ensures r.region in Regions.RegionLabels
    ensures !Truthy(raw.mapName) ==> r.mapName == UnknownMapName && r.gamemode == "Unknown"
    ensures Truthy(raw.mapName) ==> r.mapName == raw.mapName.value && r.gamemode != "Unknown"
  {
    var addr := raw.addr.value;
    ServerRecord(
      id := addr,
      name := OrElse(raw.name, "Unknown Server"),
      mapName := OrElse(raw.mapName, UnknownMapName),
      gamemode := ServerGamemode(raw.mapName),
      players := PlayersText(raw.players, raw.maxPlayers),
      region := Regions.GetRegionFromIP(BeforeFirst(addr, ':')),
      address := addr)
  }

  /** The enrichment closure: `null` (here `None`) for a malformed entry. */
  function Enrich(raw: RawServer): (r: Option<ServerRecord>)
    ensures r.Some? <==> HasValidAddr(raw)
    ensures r.Some? ==> r.value == BuildRecord(raw)
  {
    if HasValidAddr(raw) then Some(BuildRecord(raw)) else None
  }

  /** `servers.map(enrich)`, as an order-preserving sequential map. */
  function EnrichEach(raws: seq<RawServer>): (r: seq<Option<ServerRecord>>)
    ensures |r| == |raws|
    ensures forall i :: 0 <= i < |raws| ==> r[i] == Enrich(raws[i])
  {
    if raws == [] then [] else [Enrich(raws[0])] + EnrichEach(raws[1..])
  }

  /** `.filter(server => server !== null)`. */
  function DropNulls(xs: seq<Option<ServerRecord>>): seq<ServerRecord> {
    if xs == [] then []
    else match xs[0]
      case Some(x) => [x] + DropNulls(xs[1..])
      case None => DropNulls(xs[1..])
  }

  /** The records a refresh produces from the upstream list. */
  function EnrichAll(raws: seq<RawServer>): seq<ServerRecord> {
    DropNulls(EnrichEach(raws))
  }

  /** Building the records of the entries with a valid address, in their order. */
  function BuildAll(raws: seq<RawServer>): (r: seq<ServerRecord>)
    requires forall i :: 0 <= i < |raws| ==> HasValidAddr(raws[i])
    ensures |r| == |raws|
    ensures forall i :: 0 <= i < |raws| ==> r[i] == BuildRecord(raws[i])
  {
    if raws == [] then [] else [BuildRecord(raws[0])] + BuildAll(raws[1..])
  }

  /** A refresh keeps exactly the entries with a valid address, in upstream order, and
      turns each into its record. */
  lemma {:induction false} EnrichAllKeepsValidInOrder(raws: seq<RawServer>)
    ensures var valid := KeepIf(raws, HasValidAddr);
            (forall i :: 0 <= i < |valid| ==> HasValidAddr(valid[i]))
            && EnrichAll(raws) == BuildAll(valid)
  {
    if raws != [] {
      EnrichAllKeepsValidInOrder(raws[1..]);
      assert EnrichEach(raws)[1..] == EnrichEach(raws[1..]);
      if HasValidAddr(raws[0]) {
        var valid := KeepIf(raws[1..], HasValidAddr);
        assert KeepIf(raws, HasValidAddr) == [raws[0]] + valid;
        assert ([raws[0]] + valid)[1..] == valid;
      }
    }
  }

  /** Every record of a refresh is the record of some upstream entry with a valid address. */
  lemma EnrichAllFromUpstream(raws: seq<RawServer>, k: nat)
    requires k < |EnrichAll(raws)|
    ensures exists i :: 0 <= i < |raws| && HasValidAddr(raws[i]) && EnrichAll(raws)[k] == BuildRecord(raws[i])
  {
    EnrichAllKeepsValidInOrder(raws);
    var valid := KeepIf(raws, HasValidAddr);
    assert valid[k] in raws;
  }

  /** Number of entries a refresh keeps. */
  lemma EnrichAllLength(raws: seq<RawServer>)
    ensures |EnrichAll(raws)| == |KeepIf(raws, HasValidAddr)| <= |raws|
  {
    EnrichAllKeepsValidInOrder(raws);
  }

  /** The enrichment of a record as it would be sent to the client: the player count shows the
      upstream's number verbatim, with no bound check, and parses back to it. */
  lemma PlayersTextParsesBack(players: Option<int>, maxPlayers: Option<int>)
    ensures BeforeFirst(PlayersText(players, maxPlayers), '/') == NumberText(players)
    ensures ParseInt(NumberText(players)) == players
  {
    var head := NumberText(players);
    assert '/' !in head by {
      if players.Some? {
        var v := players.value;
        var digits := NatToDecimal(if v < 0 then -v else v);
        assert forall i :: 0 <= i < |digits| ==> IsDigit(digits[i]);
      }
    }
    BeforeFirstOfJoin(head, '/', NumberText(maxPlayers));
    if players.Some? {
      ParseIntOfDecimal(players.value, []);
      assert IntToDecimal(players.value) + [] == IntToDecimal(players.value);
    }
  }

  /** The three placeholder records served when the upstream lists no server. */
  const MockServers: seq<ServerRecord> := [
    ServerRecord("mock1", "TrueQuickplay Test Server", "cp_dustbowl", "Control Points", "12/24",
                 "North America East", "127.0.0.1:27015"),
    ServerRecord("mock2", "Community Server #1", "pl_upward", "Payload", "18/24",
                 "Europe", "127.0.0.1:27016"),
    ServerRecord("mock3", "2Fort 24/7", "ctf_2fort", "Capture the Flag", "22/24",
                 "Asia Pacific", "127.0.0.1:27017")
  ]

  /** The placeholders are complete records. */
  lemma MockServersPopulated()
    ensures |MockServers| == 3
    ensures forall i :: 0 <= i < |MockServers| ==> Populated(MockServers[i])
  {
  }

  /** A map named `<prefix>_<rest>`, with no '_' in the prefix, has the gamemode of its prefix. */
  lemma PrefixedMapGamemode(prefix: string, rest: string)
    requires '_' !in prefix
    ensures ServerGamemode(Some(prefix + ['_'] + rest)) == PrefixGamemode(prefix)
  {
    BeforeFirstOfJoin(prefix, '_', rest);
  }

  /** The gamemodes of the placeholders' maps; `ctf_2fort` is also the sample entry's map.
      Each is its own lemma so that every literal lookup is proved in a small context. */
  lemma DustbowlGamemode()
    ensures ServerGamemode(Some("cp_dustbowl")) == "Control Points"
  {
    assert "cp_dustbowl" == "cp" + ['_'] + "dustbowl";
    PrefixedMapGamemode("cp", "dustbowl");
  }

  lemma UpwardGamemode()
    ensures ServerGamemode(Some("pl_upward")) == "Payload"
  {
    assert "pl_upward" == "pl" + ['_'] + "upward";
    PrefixedMapGamemode("pl", "upward");
  }

  lemma TwoFortGamemode()
    ensures ServerGamemode(Some("ctf_2fort")) == "Capture the Flag"
  {
    assert "ctf_2fort" == "ctf" + ['_'] + "2fort";
    PrefixedMapGamemode("ctf", "2fort");
  }

  /** Each placeholder's gamemode is the one the server's table gives for its map. */
  lemma MockGamemodesAgree()
    ensures forall i :: 0 <= i < |MockServers| ==> MockServers[i].gamemode == ServerGamemode(Some(MockServers[i].mapName))
  {
    forall i | 0 <= i < |MockServers|
      ensures MockServers[i].gamemode == ServerGamemode(Some(MockServers[i].mapName))
    {
      if i == 0 {
        DustbowlGamemode();
      } else if i == 1 {
        UpwardGamemode();
      } else {
        TwoFortGamemode();
      }
    }
  }

  lemma LoopbackFirstOctet()
    ensures Regions.FirstOctet("127.0.0.1") == Some(127)
  {
    assert "127.0.0.1" == "127" + ['.'] + "0.0.1";
    BeforeFirstOfJoin("127", '.', "0.0.1");
    assert AllDigits("127");
    assert "127"[..2] == "12" && "12"[..1] == "1" && "1"[..0] == "";
  }

  /** An address whose first octet is in the 1..127 class and listed by no named rule. */
  lemma ClassRegion(ip: string)
    requires Regions.FirstOctet(ip).Some?
    requires var n := Regions.FirstOctet(ip).value;
             1 <= n <= 127 && n !in Regions.NamedFirstOctets && n !in {66, 68, 71, 74, 75}
    ensures Regions.GetRegionFromIP(ip) == "North America"
  {
    Regions.NorthAmericaClassExactly(Regions.FirstOctet(ip), Regions.SecondOctet(ip));
  }

  /** The classifier calls 127.0.0.1 "North America". */
  lemma LoopbackRegion()
    ensures Regions.GetRegionFromIP("127.0.0.1") == "North America"
  {
    LoopbackFirstOctet();
    ClassRegion("127.0.0.1");
  }

  lemma LoopbackHost(port: string)
    ensures BeforeFirst("127.0.0.1" + [':'] + port, ':') == "127.0.0.1"
  {
    assert ':' !in "127.0.0.1";
    BeforeFirstOfJoin("127.0.0.1", ':', port);
  }

  /** The host part of every placeholder address. */
  lemma MockHosts()
    ensures forall i :: 0 <= i < |MockServers| ==> BeforeFirst(MockServers[i].address, ':') == "127.0.0.1"
  {
    forall i | 0 <= i < |MockServers|
      ensures BeforeFirst(MockServers[i].address, ':') == "127.0.0.1"
    {
      var port := if i == 0 then "27015" else if i == 1 then "27016" else "27017";
      assert MockServers[i].address == "127.0.0.1" + [':'] + port;
      LoopbackHost(port);
    }
  }

  lemma MockRegionsNamed()
    ensures forall i :: 0 <= i < |MockServers| ==> MockServers[i].region != "North America"
  {
    forall i | 0 <= i < |MockServers|
      ensures MockServers[i].region != "North America"
    {
    }
  }

  /** The placeholders' regions are fixed text: every placeholder's host is 127.0.0.1, which
      the classifier calls "North America", a region none of them shows. */
  lemma MockRegionsAreNotClassified()
    ensures forall i :: 0 <= i < |MockServers| ==>
              MockServers[i].region != Regions.GetRegionFromIP(BeforeFirst(MockServers[i].address, ':'))
  {
    forall i | 0 <= i < |MockServers|
      ensures MockServers[i].region != Regions.GetRegionFromIP(BeforeFirst(MockServers[i].address, ':'))
    {
      MockHosts();
      LoopbackRegion();
      MockRegionsNamed();
    }
  }

  /** A sample upstream entry with every field present. */
  const ExampleRaw := RawServer(Some("1.2.3.4:27015"), Some("Test"), Some("ctf_2fort"), Some(5), Some(24))

  lemma ExampleHost()
    ensures HasValidAddr(ExampleRaw) && BeforeFirst(ExampleRaw.addr.value, ':') == "1.2.3.4"
  {
    assert ':' !in "1.2.3.4";
    assert "1.2.3.4:27015" == "1.2.3.4" + [':'] + "27015";
    BeforeFirstOfJoin("1.2.3.4", ':', "27015");
  }

  lemma ExampleRegion()
    ensures Regions.GetRegionFromIP("1.2.3.4") == "North America"
  {
    assert "1.2.3.4" == "1" + ['.'] + "2.3.4";
    BeforeFirstOfJoin("1", '.', "2.3.4");
    assert AllDigits("1") && "1"[..0] == "";
    ClassRegion("1.2.3.4");
  }

  lemma ExamplePlayers()
    ensures PlayersText(Some(5), Some(24)) == "5/24"
  {
    assert NatToDecimal(24) == NatToDecimal(2) + [DigitChar(4)];
  }

  /** A refresh of a one-entry list with a valid address yields that entry's record. */
  lemma EnrichAllSingle(raw: RawServer)
    requires HasValidAddr(raw)
    ensures EnrichAll([raw]) == [BuildRecord(raw)]
  {
    EnrichAllKeepsValidInOrder([raw]);
    assert [raw][1..] == [];
    assert KeepIf([raw], HasValidAddr) == [raw];
  }

  lemma ExampleRecord()
    ensures HasValidAddr(ExampleRaw)
    ensures BuildRecord(ExampleRaw) == ServerRecord("1.2.3.4:27015", "Test", "ctf_2fort", "Capture the Flag",
                                                     "5/24", "North America", "1.2.3.4:27015")
  {
    ExampleHost();
    ExampleRegion();
    ExamplePlayers();
    TwoFortGamemode();
  }

  /** A refresh on the sample upstream entry alone gives one record with the expected fields. */
  lemma SingleServerExample()
    ensures EnrichAll([ExampleRaw])
            == [ServerRecord("1.2.3.4:27015", "Test", "ctf_2fort", "Capture the Flag", "5/24",
                             "North America", "1.2.3.4:27015")]
  {
    ExampleRecord();
    EnrichAllSingle(ExampleRaw);
  }
}

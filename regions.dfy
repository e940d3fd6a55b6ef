/**
 * `getRegionFromIP` of the server: a coarse region label from the first two octets
 * of a dotted-quad address, by an ordered chain of octet tests in which the first
 * test that matches wins, then by the first octet's legacy address class.
 *
 * An octet is the result of `Number(...)` on its text: `None` stands both for NaN
 * and for a missing octet (`undefined`); every comparison with it is false.
 */
module Regions {
  import opened JsText

  type Octet = Option<int>

  predicate Is(o: Octet, v: int) {
    o.Some? && o.value == v
  }

  predicate Within(o: Octet, lo: int, hi: int) {
    o.Some? && lo <= o.value <= hi
  }

  /** Every label the classifier can produce. */
  const RegionLabels: set<string> := {
    "North America West", "North America East", "North America Central", "Europe",
    "Asia East", "Asia Southeast", "Asia Pacific", "Australia", "New Zealand",
    "South America", "North America", "Asia/Pacific", "Unknown"
  }

  /** The rule chain of `getRegionFromIP`, in the order the source tests it. */
  function RegionFromOctets(first: Octet, second: Octet): (region: string)
    ensures region in RegionLabels
  {
    if Is(first, 24) || Is(first, 76) || Is(first, 99)
       || (Is(first, 68) && Within(second, 128, 191))
       || (Is(first, 72) && Within(second, 0, 31))
       || (Is(first, 75) && Within(second, 0, 63))
    then "North America West"
    else if Is(first, 23) || Is(first, 64) || Is(first, 65)
       || (Is(first, 66) && Within(second, 0, 127))
       || (Is(first, 71) && Within(second, 0, 255))
       || (Is(first, 74) && Within(second, 0, 255))
    then "North America East"
    else if Is(first, 67) || Is(first, 70) || Is(first, 72)
       || (Is(first, 76) && Within(second, 16, 31))
    then "North America Central"
    else if Is(first, 146) || Is(first, 178) || Is(first, 185) || Is(first, 188)
       || Is(first, 193) || Is(first, 194) || Is(first, 195)
    then "Europe"
    else if Is(first, 155) || Is(first, 176) || Is(first, 177) || Is(first, 179)
       || Is(first, 181) || Is(first, 192)
    then "Europe"
    else if Is(first, 151) || Is(first, 160) || Is(first, 171) || Is(first, 175)
       || Is(first, 186) || Is(first, 187)
    then "Europe"
    else if Is(first, 149) || Is(first, 156) || Is(first, 161) || Is(first, 164)
       || Is(first, 165) || Is(first, 169)
    then "Europe"
    else if Is(first, 103) || Is(first, 106) || Is(first, 111) || Is(first, 112)
       || Is(first, 113) || Is(first, 114)
    then "Asia East"
    else if Is(first, 101) || Is(first, 115) || Is(first, 116) || Is(first, 117)
       || Is(first, 118) || Is(first, 119)
    then "Asia Southeast"
    else if Is(first, 121) || Is(first, 122) || Is(first, 123) || Is(first, 124)
       || Is(first, 125) || Is(first, 126)
    then "Asia Pacific"
    else if Is(first, 27) || Is(first, 43) || Is(first, 49) || Is(first, 58)
       || Is(first, 59) || Is(first, 60)
    then "Australia"
    else if Is(first, 49) || Is(first, 103) || Is(first, 110) || Is(first, 111)
       || Is(first, 114) || Is(first, 118)
    then "New Zealand"
    else if Is(first, 177) || Is(first, 179) || Is(first, 181) || Is(first, 186)
       || Is(first, 187) || Is(first, 189) || Is(first, 190) || Is(first, 191)
       || Is(first, 200) || Is(first, 201)
    then "South America"
    else if Within(first, 1, 127) then "North America"
    else if Within(first, 128, 191) then "Europe"
    else if Within(first, 192, 223) then "Asia/Pacific"
    else "Unknown"
  }

  /** `ip.split('.').map(Number)`, first and second entries. */
  function FirstOctet(ip: string): Octet {
    NumberOf(BeforeFirst(ip, '.'))
  }

  function SecondOctet(ip: string): Octet {
    match SecondPiece(ip, '.')
    case None => None
    case Some(text) => NumberOf(text)
  }

  /** `ip.split('.').map(Number)` reads back the first two octets of an address written
      in decimal, whatever follows the second octet's dot. */
  lemma OctetsOfDotted(a: nat, b: nat, rest: string)
    requires rest == [] || rest[0] == '.'
    ensures FirstOctet(NatToDecimal(a) + "." + NatToDecimal(b) + rest) == Some(a)
    ensures SecondOctet(NatToDecimal(a) + "." + NatToDecimal(b) + rest) == Some(b)
  {
    var da, db := NatToDecimal(a), NatToDecimal(b);
    assert '.' !in da && '.' !in db by {
      assert forall i :: 0 <= i < |da| ==> IsDigit(da[i]);
      assert forall i :: 0 <= i < |db| ==> IsDigit(db[i]);
    }
    assert da + "." + db + rest == da + ['.'] + (db + rest) == da + ['.'] + db + rest;
    BeforeFirstOfJoin(da, '.', db + rest);
    SecondPieceOfJoin(da, '.', db, rest);
    NumberOfDecimal(a);
    NumberOfDecimal(b);
  }

  function GetRegionFromIP(ip: string): (region: string)
    ensures region in RegionLabels && region != ""
  {
    RegionFromOctets(FirstOctet(ip), SecondOctet(ip))
  }

  // ---------------------------------------------------------------------------
  // What the chain decides once first-match-wins is taken into account: for each
  // label, exactly the octets that produce it. Several tests of the chain are
  // partly or wholly shadowed by earlier ones.
  // ---------------------------------------------------------------------------

  predicate FirstIn(o: Octet, values: set<int>) {
    o.Some? && o.value in values
  }

  lemma NorthAmericaWestExactly(first: Octet, second: Octet)
    ensures RegionFromOctets(first, second) == "North America West" <==>
      FirstIn(first, {24, 76, 99}) || (Is(first, 68) && Within(second, 128, 191))
      || (Is(first, 72) && Within(second, 0, 31)) || (Is(first, 75) && Within(second, 0, 63))
  {
  }

  lemma NorthAmericaEastExactly(first: Octet, second: Octet)
    ensures RegionFromOctets(first, second) == "North America East" <==>
      FirstIn(first, {23, 64, 65}) || (Is(first, 66) && Within(second, 0, 127))
      || (Is(first, 71) && Within(second, 0, 255)) || (Is(first, 74) && Within(second, 0, 255))
  {
  }

  /** 72 reaches this rule only when the second octet is outside 0..31, and the 76 test is dead. */
  lemma NorthAmericaCentralExactly(first: Octet, second: Octet)
    ensures RegionFromOctets(first, second) == "North America Central" <==>
      FirstIn(first, {67, 70}) || (Is(first, 72) && !Within(second, 0, 31))
  {
  }

  /** Any address starting with 76, whatever its second octet, is North America West. */
  lemma SeventySixIsWest(second: Octet)
    ensures RegionFromOctets(Some(76), second) == "North America West"
  {
  }

  /** The four Europe lists, then the 128..191 class bucket less the three South America octets. */
  lemma EuropeExactly(first: Octet, second: Octet)
    ensures RegionFromOctets(first, second) == "Europe" <==>
      FirstIn(first, {192, 193, 194, 195}) || (Within(first, 128, 191) && !FirstIn(first, {189, 190, 191}))
  {
  }

  lemma AsiaEastExactly(first: Octet, second: Octet)
    ensures RegionFromOctets(first, second) == "Asia East" <==> FirstIn(first, {103, 106, 111, 112, 113, 114})
  {
  }

  lemma AsiaSoutheastExactly(first: Octet, second: Octet)
    ensures RegionFromOctets(first, second) == "Asia Southeast" <==> FirstIn(first, {101, 115, 116, 117, 118, 119})
  {
  }

  lemma AsiaPacificExactly(first: Octet, second: Octet)
    ensures RegionFromOctets(first, second) == "Asia Pacific" <==> Within(first, 121, 126)
  {
  }

  /** 49 is listed for both Australia and New Zealand; Australia is tested first. */
  lemma AustraliaExactly(first: Octet, second: Octet)
    ensures RegionFromOctets(first, second) == "Australia" <==> FirstIn(first, {27, 43, 49, 58, 59, 60})
  {
  }

  /** Of the six octets listed for New Zealand only 110 is not claimed by an earlier rule. */
  lemma NewZealandExactly(first: Octet, second: Octet)
    ensures RegionFromOctets(first, second) == "New Zealand" <==> Is(first, 110)
  {
  }

  /** 177, 179, 181, 186 and 187 are claimed by the Europe lists first. */
  lemma SouthAmericaExactly(first: Octet, second: Octet)
    ensures RegionFromOctets(first, second) == "South America" <==> FirstIn(first, {189, 190, 191, 200, 201})
  {
  }

  lemma AsiaPacificClassExactly(first: Octet, second: Octet)
    ensures RegionFromOctets(first, second) == "Asia/Pacific" <==> Within(first, 196, 223) && !FirstIn(first, {200, 201})
  {
  }

  /** NaN, a missing first octet and every first octet outside 1..223 give "Unknown". */
  lemma UnknownExactly(first: Octet, second: Octet)
    ensures RegionFromOctets(first, second) == "Unknown" <==> !Within(first, 1, 223)
  {
  }

  /** The 1..127 class bucket catches every first octet of that range that no named rule lists. */
  lemma NorthAmericaClassExactly(first: Octet, second: Octet)
    ensures RegionFromOctets(first, second) == "North America" <==>
      Within(first, 1, 127) && !FirstIn(first, NamedFirstOctets)
      && !(Is(first, 66) && Within(second, 0, 127)) && !(Is(first, 68) && Within(second, 128, 191))
      && !(FirstIn(first, {71, 74}) && Within(second, 0, 255)) && !(Is(first, 75) && Within(second, 0, 63))
  {
  }

  /** The first octets from 1 to 127 that a named rule lists unconditionally. */
  const NamedFirstOctets: set<int> := {
    23, 24, 27, 43, 49, 58, 59, 60, 64, 65, 67, 70, 72, 76, 99,
    101, 103, 106, 110, 111, 112, 113, 114, 115, 116, 117, 118, 119,
    121, 122, 123, 124, 125, 126
  }
}

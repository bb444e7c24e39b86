/**
 * The Nexys A7 PMOD headers and the microSD PMOD template. The five headers form the
 * board's connector registry, eight pins each; the template builds the resources of a
 * Digilent microSD PMOD on a given header, every pin a reference `header:i` into it.
 */
module NexysA7Pmod {
  import opened Results
  import opened PinText
  import opened Connectors
  import opened Resources
  import opened NexysA7Text

  /** The PMOD headers: name and pin string, pin 0 first. */
  const ConnectorList: seq<(string, string)> := [
    ("pmoda",    "C17 D18 E18 G17 D17 E17 F18 G18"),
    ("pmodb",    "D14 F16 G16 H14 E16 F13 G13 H16"),
    ("pmodc",    "K1 F6 J2 G6 E7 J3 J4 E6"),
    ("pmodd",    "H4 H1 G1 G3 H2 G4 G2 F3"),
    ("pmodxdac", "A14 A13 A16 A15 B17 B16 A18 B18")
  ]

  /** The connector registry of the board. */
  const Registry: ConnectorTable := BuildTable(ConnectorList)

  /** The names of the headers. */
  const HeaderNames: set<string> := {"pmoda", "pmodb", "pmodc", "pmodd", "pmodxdac"}

  // ---------------------------------------------------------------------------------------
  // The registry

  lemma ConnectorNamesDistinct()
    ensures DistinctNames(ConnectorList)
  {
  }

  /** Header `i` of the list is registered under its name with the split of its pin string. */
  lemma RegistryEntry(i: nat)
    requires i < |ConnectorList|
    ensures ConnectorList[i].0 in Registry && Registry[ConnectorList[i].0] == Split(ConnectorList[i].1)
  {
    ConnectorNamesDistinct();
    BuildTableDistinct(ConnectorList);
  }

  lemma ListedNames()
    ensures (set i | 0 <= i < |ConnectorList| :: ConnectorList[i].0) == HeaderNames
  {
    assert ConnectorList[0].0 == "pmoda" && ConnectorList[1].0 == "pmodb";
    assert ConnectorList[2].0 == "pmodc" && ConnectorList[3].0 == "pmodd";
    assert ConnectorList[4].0 == "pmodxdac";
  }

  /** The registry holds the five headers and nothing else. */
  lemma RegistryKeys()
    ensures Registry.Keys == HeaderNames
  {
    ConnectorNamesDistinct();
    BuildTableDistinct(ConnectorList);
    ListedNames();
  }

  lemma PmodAPins()
    ensures "pmoda" in Registry && Registry["pmoda"] == ["C17", "D18", "E18", "G17", "D17", "E17", "F18", "G18"]
  {
    RegistryEntry(0);
    assert ConnectorList[0] == ("pmoda", "C17 D18 E18 G17 D17 E17 F18 G18");
    PmodA();
  }

  lemma PmodBPins()
    ensures "pmodb" in Registry && Registry["pmodb"] == ["D14", "F16", "G16", "H14", "E16", "F13", "G13", "H16"]
  {
    RegistryEntry(1);
    assert ConnectorList[1] == ("pmodb", "D14 F16 G16 H14 E16 F13 G13 H16");
    PmodB();
  }

  lemma PmodCPins()
    ensures "pmodc" in Registry && Registry["pmodc"] == ["K1", "F6", "J2", "G6", "E7", "J3", "J4", "E6"]
  {
    RegistryEntry(2);
    assert ConnectorList[2] == ("pmodc", "K1 F6 J2 G6 E7 J3 J4 E6");
    PmodC();
  }

  /** Header JD, in the order its pins are numbered. */
  lemma PmodDPins()
    ensures "pmodd" in Registry && Registry["pmodd"] == ["H4", "H1", "G1", "G3", "H2", "G4", "G2", "F3"]
  {
    RegistryEntry(3);
    assert ConnectorList[3] == ("pmodd", "H4 H1 G1 G3 H2 G4 G2 F3");
    PmodD();
  }

  lemma PmodXdacPins()
    ensures "pmodxdac" in Registry && Registry["pmodxdac"] == ["A14", "A13", "A16", "A15", "B17", "B16", "A18", "B18"]
  {
    RegistryEntry(4);
    assert ConnectorList[4] == ("pmodxdac", "A14 A13 A16 A15 B17 B16 A18 B18");
    PmodXdac();
  }

  lemma ListedName(i: nat)
    requires i < |ConnectorList|
    ensures ':' !in ConnectorList[i].0
  {
  }

  /** Each listed header splits into eight pins. */
  lemma ListedPins(i: nat)
    requires i < |ConnectorList|
    ensures |Split(ConnectorList[i].1)| == 8
  {
    if i == 0 {
      PmodA();
    } else if i == 1 {
      PmodB();
    } else if i == 2 {
      PmodC();
    } else if i == 3 {
      PmodD();
    } else {
      PmodXdac();
    }
  }

  // ---------------------------------------------------------------------------------------
  // The microSD PMOD template

  /** The Digilent microSD PMOD plugged into connector `pmod`: an SPI-mode and a
   *  native-mode SD card resource, every pin a reference into that connector. */
  function SdcardPmodIo(pmod: string): (rs: seq<Resource>)
    ensures |rs| == 2 && Key(rs[0]) == ("spisdcard", 0) && Key(rs[1]) == ("sdcard", 0)
    ensures forall i | 0 <= i < |rs| :: rs[i].Compound? && |rs[i].subsignals| == 4
    ensures forall s | 0 <= s < 4 :: rs[0].subsignals[s].name == ["clk", "mosi", "cs_n", "miso"][s]
    ensures forall s | 0 <= s < 4 :: rs[1].subsignals[s].name == ["data", "cmd", "clk", "cd"][s]
  {
    [
      Compound("spisdcard", 0, [
        Subsignal("clk",  Pins([pmod + ":3"]), []),
        Subsignal("mosi", Pins([pmod + ":1"]), [Misc("PULLUP True")]),
        Subsignal("cs_n", Pins([pmod + ":0"]), [Misc("PULLUP True")]),
        Subsignal("miso", Pins([pmod + ":2"]), [Misc("PULLUP True")])],
        [Misc("SLEW=FAST"), IOStandard("LVCMOS33")]),
      Compound("sdcard", 0, [
        Subsignal("data", Pins([pmod + ":2 " + pmod + ":4 " + pmod + ":5 " + pmod + ":0"]),
          [Misc("PULLUP True")]),
        Subsignal("cmd",  Pins([pmod + ":1"]), [Misc("PULLUP True")]),
        Subsignal("clk",  Pins([pmod + ":3"]), []),
        Subsignal("cd",   Pins([pmod + ":6"]), [])],
        [Misc("SLEW=FAST"), IOStandard("LVCMOS33")])
    ]
  }

  /** The SD-card PMOD on header JD. */
  const SdcardPmodJd: seq<Resource> := SdcardPmodIo("pmodd")

  /** The connector positions each sub-signal of the template refers to, resource by
   *  resource and sub-signal by sub-signal. */
  const SdcardPositions: seq<seq<seq<nat>>> := [
    [[3], [1], [0], [2]],
    [[2, 4, 5, 0], [1], [3], [6]]
  ]

  /** The template only uses positions 0 to 6, so any connector with seven pins or more
   *  can carry it. */
  lemma PositionsBelowSeven()
    ensures forall r, s, k | 0 <= r < |SdcardPositions| && 0 <= s < |SdcardPositions[r]|
                             && 0 <= k < |SdcardPositions[r][s]| :: SdcardPositions[r][s][k] <= 6
  {
  }

  /** The reference text `p:i`, written as `p` followed by its suffix. */
  lemma RefSuffix(p: string, i: nat, suffix: string)
    requires suffix == ":" + DecimalText(i)
    ensures RefText(p, i) == p + suffix
  {
  }

  /** A reference `p:i` is one identifier when `p` is. */
  lemma OneRef(p: string, i: nat, suffix: string)
    requires IsWord(p) && suffix == ":" + DecimalText(i)
    ensures IsWord(p + suffix)
    ensures Identifiers(Pins([p + suffix])) == Refs(p, [i])
  {
    RefSuffix(p, i, suffix);
    WordAppend(p, suffix);
    SinglePin(p + suffix);
  }

  /** The data pin string of the template joins the four references `p:2 p:4 p:5 p:0`. */
  lemma DataJoin(p: string)
    requires IsWord(p)
    ensures var ws := [p + ":2", p + ":4", p + ":5", p + ":0"];
            Words(ws) && Join(ws) == p + ":2 " + p + ":4 " + p + ":5 " + p + ":0"
  {
    var a, b, c, d := p + ":2", p + ":4", p + ":5", p + ":0";
    WordAppend(p, ":2");
    WordAppend(p, ":4");
    WordAppend(p, ":5");
    WordAppend(p, ":0");
    assert Join([c, d]) == c + " " + d by { assert [c, d][1..] == [d]; }
    assert Join([b, c, d]) == b + " " + Join([c, d]) by { assert [b, c, d][1..] == [c, d]; }
    assert Join([a, b, c, d]) == a + " " + Join([b, c, d]) by { assert [a, b, c, d][1..] == [b, c, d]; }
  }

  /** The data lines of the template: `p:2 p:4 p:5 p:0` names four references. */
  lemma DataRefs(p: string)
    requires IsWord(p)
    ensures Identifiers(Pins([p + ":2 " + p + ":4 " + p + ":5 " + p + ":0"])) == Refs(p, [2, 4, 5, 0])
  {
    var ws := [p + ":2", p + ":4", p + ":5", p + ":0"];
    var text := p + ":2 " + p + ":4 " + p + ":5 " + p + ":0";
    DataJoin(p);
    SplitsInto(text, ws);
    IdentifiersCons(text, []);
    RefSuffix(p, 2, ":2");
    RefSuffix(p, 4, ":4");
    RefSuffix(p, 5, ":5");
    RefSuffix(p, 0, ":0");
    assert Refs(p, [2, 4, 5, 0]) == ws;
  }

  /** Every sub-signal of the template refers, in order, to the positions listed for it. */
  lemma SdcardRefs(p: string)
    requires IsWord(p)
    ensures forall r, s | 0 <= r < 2 && 0 <= s < 4 ::
              |SdcardPositions[r]| == 4
              && Identifiers(SdcardPmodIo(p)[r].subsignals[s].pins) == Refs(p, SdcardPositions[r][s])
  {
    var rs := SdcardPmodIo(p);
    OneRef(p, 3, ":3");
    OneRef(p, 1, ":1");
    OneRef(p, 0, ":0");
    OneRef(p, 2, ":2");
    OneRef(p, 6, ":6");
    DataRefs(p);
  }

  /** On a connector with at least seven pins, every sub-signal of the template resolves
   *  to the connector's pins at its listed positions. */
  lemma SdcardResolves(table: ConnectorTable, p: string)
    requires IsWord(p) && ':' !in p && p in table && 7 <= |table[p]|
    ensures forall r, s | 0 <= r < 2 && 0 <= s < 4 ::
              |SdcardPositions[r]| == 4
              && (forall k | 0 <= k < |SdcardPositions[r][s]| :: SdcardPositions[r][s][k] < |table[p]|)
              && ResolveAll(table, Identifiers(SdcardPmodIo(p)[r].subsignals[s].pins))
                 == Ok(Pick(table[p], SdcardPositions[r][s]))
  {
    SdcardRefs(p);
    PositionsBelowSeven();
    forall r, s | 0 <= r < 2 && 0 <= s < 4
      ensures ResolveAll(table, Refs(p, SdcardPositions[r][s])) == Ok(Pick(table[p], SdcardPositions[r][s]))
    {
      ResolveRefs(table, p, SdcardPositions[r][s]);
    }
  }
}

/**
 * What the Nexys A7 PMOD headers resolve to: eight pins per header, `header:i` for i
 * below 8 is the i-th pin and `header:8` is out of range, and the microSD PMOD on
 * header JD lands on the pins the board's SD-card wiring expects.
 */
module NexysA7PmodFacts {
  import opened Results
  import opened PinText
  import opened Connectors
  import opened Resources
  import opened NexysA7Pmod

  /** Every header has exactly eight pins. */
  lemma EightPins()
    ensures forall c | c in Registry :: |Registry[c]| == 8
  {
    BuildTableFacts(ConnectorList);
    forall c | c in Registry ensures |Registry[c]| == 8 {
      var i :| 0 <= i < |ConnectorList| && ConnectorList[i].0 == c && Registry[c] == Split(ConnectorList[i].1);
      ListedPins(i);
    }
  }

  /** `c:i` on a header resolves to its i-th pin for i below 8; `c:8` is out of range. */
  lemma ResolveHeaderPin(c: string, i: nat)
    requires c in Registry
    ensures i < 8 ==> i < |Registry[c]| && ResolveIdentifier(Registry, RefText(c, i)) == Ok(Registry[c][i])
    ensures 8 <= i ==> ResolveIdentifier(Registry, RefText(c, i)) == Err(IndexOutOfRange(c, i))
  {
    EightPins();
    BuildTableFacts(ConnectorList);
    var j :| 0 <= j < |ConnectorList| && ConnectorList[j].0 == c;
    ListedName(j);
    ResolveReference(Registry, c, i);
  }

  /** A reference to a header the board does not have fails, naming the header. */
  lemma ResolveUnknownHeader(c: string, i: nat)
    requires ':' !in c && c !in HeaderNames
    ensures ResolveIdentifier(Registry, RefText(c, i)) == Err(UnknownConnector(c))
  {
    RegistryKeys();
    ResolveReference(Registry, c, i);
  }

  lemma PmodDName()
    ensures IsWord("pmodd") && ':' !in "pmodd"
  {
  }

  lemma PmodD3Text()
    ensures RefText("pmodd", 3) == "pmodd:3"
  {
    assert DecimalText(3) == "3";
  }

  /** In any registry that lists JD's pins under `pmodd`, `pmodd:3` is pin G3. */
  lemma PmodD3In(table: ConnectorTable)
    requires "pmodd" in table && table["pmodd"] == ["H4", "H1", "G1", "G3", "H2", "G4", "G2", "F3"]
    ensures ResolveIdentifier(table, "pmodd:3") == Ok("G3")
  {
    PmodDName();
    PmodD3Text();
    ResolveReference(table, "pmodd", 3);
  }

  /** `pmodd:3` is pin G3. */
  lemma PmodD3()
    ensures ResolveIdentifier(Registry, "pmodd:3") == Ok("G3")
  {
    PmodDPins();
    PmodD3In(Registry);
  }

  lemma PmodDSize()
    ensures "pmodd" in Registry && 7 <= |Registry["pmodd"]|
  {
    PmodDPins();
  }

  /** The JD pins each sub-signal of the template picks. */
  lemma JdPicks(pins: seq<string>)
    requires pins == ["H4", "H1", "G1", "G3", "H2", "G4", "G2", "F3"]
    ensures Pick(pins, SdcardPositions[0][0]) == ["G3"] && Pick(pins, SdcardPositions[0][1]) == ["H1"]
    ensures Pick(pins, SdcardPositions[0][2]) == ["H4"] && Pick(pins, SdcardPositions[0][3]) == ["G1"]
    ensures Pick(pins, SdcardPositions[1][0]) == ["G1", "H2", "G4", "H4"]
    ensures Pick(pins, SdcardPositions[1][1]) == ["H1"] && Pick(pins, SdcardPositions[1][2]) == ["G3"]
    ensures Pick(pins, SdcardPositions[1][3]) == ["G2"]
  {
  }

  /** The microSD PMOD on header JD: in SPI mode clk G3, mosi H1, cs_n H4, miso G1; in
   *  native mode data G1, H2, G4, H4 (in that order), cmd H1, clk G3, cd G2. */
  lemma SdcardJdPins()
    ensures ResolveAll(Registry, Identifiers(SdcardPmodJd[0].subsignals[0].pins)) == Ok(["G3"])
    ensures ResolveAll(Registry, Identifiers(SdcardPmodJd[0].subsignals[1].pins)) == Ok(["H1"])
    ensures ResolveAll(Registry, Identifiers(SdcardPmodJd[0].subsignals[2].pins)) == Ok(["H4"])
    ensures ResolveAll(Registry, Identifiers(SdcardPmodJd[0].subsignals[3].pins)) == Ok(["G1"])
    ensures ResolveAll(Registry, Identifiers(SdcardPmodJd[1].subsignals[0].pins)) == Ok(["G1", "H2", "G4", "H4"])
    ensures ResolveAll(Registry, Identifiers(SdcardPmodJd[1].subsignals[1].pins)) == Ok(["H1"])
    ensures ResolveAll(Registry, Identifiers(SdcardPmodJd[1].subsignals[2].pins)) == Ok(["G3"])
    ensures ResolveAll(Registry, Identifiers(SdcardPmodJd[1].subsignals[3].pins)) == Ok(["G2"])
  {
    PmodDName();
    PmodDSize();
    SdcardResolves(Registry, "pmodd");
    PmodDPins();
    JdPicks(Registry["pmodd"]);
  }
}

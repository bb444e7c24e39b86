/**
 * Concrete answers of the Nexys A7 resource table: what the requests a design makes
 * (the system clock, the Ethernet reference clock, the memory buses) resolve to, and how
 * many pins the multi-string pin groups and the pin strings with trailing blanks name.
 */
module NexysA7Pins {
  import opened Results
  import opened PinText
  import opened Connectors
  import opened Resources
  import opened NexysA7
  import opened NexysA7Facts
  import opened NexysA7Text

  /** A request that section `k` answers, with no earlier section using the name, is
   *  answered the same way by the whole table. */
  lemma IoFind(k: nat, name: string, number: Option<nat>)
    requires k < |Sections|
    requires forall j | 0 <= j < k :: name !in SectionNames[j]
    requires FindResource(Sections[k], name, number).Some?
    ensures FindResource(Io, name, number) == FindResource(Sections[k], name, number)
  {
    SectionsNamed();
    FlattenFind(Sections, SectionNames, k, name, number);
  }

  /** The default clock `clk100` is the single pin E3. */
  lemma Clk100Pin()
    ensures RequestIdentifiers(Io, "clk100", None) == Some(["E3"])
  {
    FindAt(ClockReset, 0, "clk100", None);
    IoFind(0, "clk100", None);
    RequestWhole(Io, "clk100", None);
    PinE3();
  }

  /** The request `name`, with the index of entry `j` of section `k`, gives that entry's
   *  identifiers, when that entry is a simple one and no earlier section uses its name. */
  lemma SimpleRequest(k: nat, j: nat)
    requires k < |Sections| && j < |Sections[k]| && Sections[k][j].Simple?
    requires ':' !in Sections[k][j].name
    requires forall i | 0 <= i < k :: Sections[k][j].name !in SectionNames[i]
    ensures var r := Sections[k][j];
            RequestIdentifiers(Io, r.name, Some(r.index)) == Some(Identifiers(r.pins))
  {
    var r := Sections[k][j];
    SectionsNamed();
    FindUnique(Sections[k], j);
    IoFind(k, r.name, Some(r.index));
    RequestWhole(Io, r.name, Some(r.index));
  }

  /** The request `name:sub` for sub-signal `s` of entry `j` of section `k` gives that
   *  sub-signal's identifiers, when the entry is the first of its name in the table and
   *  the sub-signal the first of its name in the entry. */
  lemma SubsignalRequest(k: nat, j: nat, s: nat, name: string, sub: string, p: Pins, path: string)
    requires FirstPart(k, j, s, name, sub, p)
    requires Classify(path) == Reference(name, sub)
    ensures RequestIdentifiers(Io, path, None) == Some(Identifiers(p))
  {
    var r := Sections[k][j];
    FindAt(Sections[k], j, name, None);
    IoFind(k, name, None);
    LookupPart(Io, path, name, sub, None, s);
  }

  lemma CellularRamAddressRequest()
    ensures RequestIdentifiers(Io, "cellularram:addr", None) == Some(Identifiers(Pins(["J18 H17 H15 J17 H16 K15 K13 N15", "V16 U14 V14 V12 P14 U16 R15 N14", "N16 M13 V17 U17 T10 M16 U13"])))
  {
    CellularRamAddressPath();
    CellularRamAddressFirst();
    SubsignalRequest(9, 0, 0, "cellularram", "addr", Pins(["J18 H17 H15 J17 H16 K15 K13 N15", "V16 U14 V14 V12 P14 U16 R15 N14", "N16 M13 V17 U17 T10 M16 U13"]), "cellularram:addr");
  }

  /** `cellularram:addr` is a 23-pin bus. */
  lemma CellularRamAddress()
    ensures RequestIdentifiers(Io, "cellularram:addr", None)
            == Some(["J18", "H17", "H15", "J17", "H16", "K15", "K13", "N15"]
                    + (["V16", "U14", "V14", "V12", "P14", "U16", "R15", "N14"]
                       + ["N16", "M13", "V17", "U17", "T10", "M16", "U13"]))
  {
    CellularRamAddressRequest();
    CellularRamAddressPins();
  }

  lemma CellularRamDataRequest()
    ensures RequestIdentifiers(Io, "cellularram:data", None) == Some(Identifiers(Pins(["R12 T11 U12 R13 U18 R17 T18 R18", "F18 G18 G17 M18 M17 P18 N17 P17"])))
  {
    CellularRamDataPath();
    CellularRamDataFirst();
    SubsignalRequest(9, 0, 1, "cellularram", "data", Pins(["R12 T11 U12 R13 U18 R17 T18 R18", "F18 G18 G17 M18 M17 P18 N17 P17"]), "cellularram:data");
  }

  /** `cellularram:data` is a 16-pin bus. */
  lemma CellularRamData()
    ensures RequestIdentifiers(Io, "cellularram:data", None)
            == Some(["R12", "T11", "U12", "R13", "U18", "R17", "T18", "R18"]
                    + ["F18", "G18", "G17", "M18", "M17", "P18", "N17", "P17"])
  {
    CellularRamDataRequest();
    CellularRamDataPins();
  }

  lemma DdrAddressRequest()
    ensures RequestIdentifiers(Io, "ddram:a", None) == Some(Identifiers(Pins(["M4 P4 M6 T1 L3 P5 M2 N1", "L4 N5 R2 K5 N6"])))
  {
    DdrAddressPath();
    DdrAddressFirst();
    SubsignalRequest(9, 1, 0, "ddram", "a", Pins(["M4 P4 M6 T1 L3 P5 M2 N1", "L4 N5 R2 K5 N6"]), "ddram:a");
  }

  /** `ddram:a` is a 13-pin bus. */
  lemma DdrAddress()
    ensures RequestIdentifiers(Io, "ddram:a", None)
            == Some(["M4", "P4", "M6", "T1", "L3", "P5", "M2", "N1"] + ["L4", "N5", "R2", "K5", "N6"])
  {
    DdrAddressRequest();
    DdrAddressPins();
  }

  lemma DdrDataRequest()
    ensures RequestIdentifiers(Io, "ddram:dq", None) == Some(Identifiers(Pins(["R7 V6 R8 U7 V7 R6 U6 R5", "T5 U3 V5 U4 V4 T4 V1 T3"])))
  {
    DdrDataPath();
    DdrDataFirst();
    SubsignalRequest(9, 1, 7, "ddram", "dq", Pins(["R7 V6 R8 U7 V7 R6 U6 R5", "T5 U3 V5 U4 V4 T4 V1 T3"]), "ddram:dq");
  }

  /** `ddram:dq` is a 16-pin bus. */
  lemma DdrData()
    ensures RequestIdentifiers(Io, "ddram:dq", None)
            == Some(["R7", "V6", "R8", "U7", "V7", "R6", "U6", "R5"]
                    + ["T5", "U3", "V5", "U4", "V4", "T4", "V1", "T3"])
  {
    DdrDataRequest();
    DdrDataPins();
  }

  lemma RefClkRequest()
    ensures RequestIdentifiers(Io, "eth_clocks:ref_clk", None) == Some(Identifiers(Pins(["D5"])))
  {
    RefClkPath();
    RefClkFirst();
    SubsignalRequest(10, 0, 0, "eth_clocks", "ref_clk", Pins(["D5"]), "eth_clocks:ref_clk");
  }

  /** The Ethernet reference clock `eth_clocks:ref_clk` is the single pin D5. */
  lemma RefClkPin()
    ensures RequestIdentifiers(Io, "eth_clocks:ref_clk", None) == Some(["D5"])
  {
    RefClkRequest();
    PinD5();
  }

  /** Digit anode 2 is the single pin T9, although its pin string is written `"T9 "`. */
  lemma AnodeT9()
    ensures RequestIdentifiers(Io, "segled_an", Some(2)) == Some(["T9"])
  {
    NotBefore("segled_an", 2);
    SimpleRequest(2, 2);
    BlankT9();
  }

  /** Digit anode 6 is the single pin K2 (written `"K2 "`). */
  lemma AnodeK2()
    ensures RequestIdentifiers(Io, "segled_an", Some(6)) == Some(["K2"])
  {
    NotBefore("segled_an", 2);
    SimpleRequest(2, 6);
    BlankK2();
  }

  /** Switch 8 is the single pin T8 (written `"T8 "`). */
  lemma SwitchT8()
    ensures RequestIdentifiers(Io, "user_sw", Some(8)) == Some(["T8"])
  {
    NotBefore("user_sw", 5);
    SimpleRequest(5, 8);
    BlankT8();
  }

  /** Switch 9 is the single pin U8 (written `"U8 "`). */
  lemma SwitchU8()
    ensures RequestIdentifiers(Io, "user_sw", Some(9)) == Some(["U8"])
  {
    NotBefore("user_sw", 5);
    SimpleRequest(5, 9);
    BlankU8();
  }

  /** Switch 12 is the single pin H6 (written `"H6 "`). */
  lemma SwitchH6()
    ensures RequestIdentifiers(Io, "user_sw", Some(12)) == Some(["H6"])
  {
    NotBefore("user_sw", 5);
    SimpleRequest(5, 12);
    BlankH6();
  }
}

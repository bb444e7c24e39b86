/**
 * How the literal texts of the Nexys A7 board file read: the request paths with a
 * sub-signal part, and the pin strings, split into identifiers. These facts are about text
 * alone, so they are stated apart from the tables that contain the texts, one text per
 * lemma.
 */
module NexysA7Text {
  import opened Results
  import opened PinText
  import opened Connectors

  /** Words joined by single spaces split back into those words. */
  lemma SplitsInto(s: string, ws: seq<string>)
    requires forall i | 0 <= i < |ws| :: IsWord(ws[i])
    requires Join(ws) == s
    ensures Split(s) == ws
  {
    SplitJoin(ws);
  }

  /** A pin group of one word names that one pin. */
  lemma SinglePin(w: string)
    requires IsWord(w)
    ensures Identifiers(Pins([w])) == [w]
  {
    IdentifiersCons(w, []);
    SplitsInto(w, [w]);
  }

  lemma PinE3()
    ensures Identifiers(Pins(["E3"])) == ["E3"]
  {
    SinglePin("E3");
  }

  lemma PinD5()
    ensures Identifiers(Pins(["D5"])) == ["D5"]
  {
    SinglePin("D5");
  }

  /** A one-word pin string with a trailing blank still names one pin. */
  lemma TrailingBlankPin(s: string, w: string)
    requires IsWord(w) && s == w + " "
    ensures Identifiers(Pins([s])) == [w]
  {
    IdentifiersCons(s, []);
    SplitTrailingSpace(w);
    SplitsInto(w, [w]);
  }

  lemma RefClkText()
    ensures "eth_clocks:ref_clk" == "eth_clocks" + ":" + "ref_clk"
  {
  }

  /** `eth_clocks:ref_clk` asks for sub-signal `ref_clk` of `eth_clocks`. */
  lemma RefClkPath()
    ensures Classify("eth_clocks:ref_clk") == Reference("eth_clocks", "ref_clk")
  {
    RefClkText();
    ClassifyPair("eth_clocks", "ref_clk");
  }

  lemma CellularRamAddressPathText()
    ensures "cellularram:addr" == "cellularram" + ":" + "addr"
  {
  }

  lemma CellularRamAddressPath()
    ensures Classify("cellularram:addr") == Reference("cellularram", "addr")
  {
    CellularRamAddressPathText();
    ClassifyPair("cellularram", "addr");
  }

  lemma CellularRamDataPathText()
    ensures "cellularram:data" == "cellularram" + ":" + "data"
  {
  }

  lemma CellularRamDataPath()
    ensures Classify("cellularram:data") == Reference("cellularram", "data")
  {
    CellularRamDataPathText();
    ClassifyPair("cellularram", "data");
  }

  lemma DdrAddressPathText()
    ensures "ddram:a" == "ddram" + ":" + "a"
  {
  }

  lemma DdrAddressPath()
    ensures Classify("ddram:a") == Reference("ddram", "a")
  {
    DdrAddressPathText();
    ClassifyPair("ddram", "a");
  }

  lemma DdrDataPathText()
    ensures "ddram:dq" == "ddram" + ":" + "dq"
  {
  }

  lemma DdrDataPath()
    ensures Classify("ddram:dq") == Reference("ddram", "dq")
  {
    DdrDataPathText();
    ClassifyPair("ddram", "dq");
  }

  lemma BlankT9()
    ensures Identifiers(Pins(["T9 "])) == ["T9"]
  {
    assert "T9 " == "T9" + " ";
    TrailingBlankPin("T9 ", "T9");
  }

  lemma BlankK2()
    ensures Identifiers(Pins(["K2 "])) == ["K2"]
  {
    assert "K2 " == "K2" + " ";
    TrailingBlankPin("K2 ", "K2");
  }

  lemma BlankT8()
    ensures Identifiers(Pins(["T8 "])) == ["T8"]
  {
    assert "T8 " == "T8" + " ";
    TrailingBlankPin("T8 ", "T8");
  }

  lemma BlankU8()
    ensures Identifiers(Pins(["U8 "])) == ["U8"]
  {
    assert "U8 " == "U8" + " ";
    TrailingBlankPin("U8 ", "U8");
  }

  lemma BlankH6()
    ensures Identifiers(Pins(["H6 "])) == ["H6"]
  {
    assert "H6 " == "H6" + " ";
    TrailingBlankPin("H6 ", "H6");
  }

  // Each long pin string, split. Its halves are joined in lemmas of their own; the split
  // then follows from `SplitHalves`.

  lemma AddressChunk0FirstHalf()
    ensures Join(["J18", "H17", "H15", "J17"]) == "J18 H17 H15 J17" && Words(["J18", "H17", "H15", "J17"])
  {
  }

  lemma AddressChunk0SecondHalf()
    ensures Join(["H16", "K15", "K13", "N15"]) == "H16 K15 K13 N15" && Words(["H16", "K15", "K13", "N15"])
  {
  }

  lemma AddressChunk0Text()
    ensures "J18 H17 H15 J17 H16 K15 K13 N15" == "J18 H17 H15 J17" + " " + "H16 K15 K13 N15"
  {
  }

  lemma AddressChunk0Of(s: string)
    requires s == "J18 H17 H15 J17 H16 K15 K13 N15"
    ensures Split(s) == ["J18", "H17", "H15", "J17", "H16", "K15", "K13", "N15"]
  {
    AddressChunk0FirstHalf();
    AddressChunk0SecondHalf();
    AddressChunk0Text();
    SplitHalves(s, ["J18", "H17", "H15", "J17"], ["H16", "K15", "K13", "N15"]);
  }

  lemma AddressChunk0()
    ensures Split("J18 H17 H15 J17 H16 K15 K13 N15") == ["J18", "H17", "H15", "J17", "H16", "K15", "K13", "N15"]
  {
    AddressChunk0Of("J18 H17 H15 J17 H16 K15 K13 N15");
  }

  lemma AddressChunk1FirstHalf()
    ensures Join(["V16", "U14", "V14", "V12"]) == "V16 U14 V14 V12" && Words(["V16", "U14", "V14", "V12"])
  {
  }

  lemma AddressChunk1SecondHalf()
    ensures Join(["P14", "U16", "R15", "N14"]) == "P14 U16 R15 N14" && Words(["P14", "U16", "R15", "N14"])
  {
  }

  lemma AddressChunk1Text()
    ensures "V16 U14 V14 V12 P14 U16 R15 N14" == "V16 U14 V14 V12" + " " + "P14 U16 R15 N14"
  {
  }

  lemma AddressChunk1Of(s: string)
    requires s == "V16 U14 V14 V12 P14 U16 R15 N14"
    ensures Split(s) == ["V16", "U14", "V14", "V12", "P14", "U16", "R15", "N14"]
  {
    AddressChunk1FirstHalf();
    AddressChunk1SecondHalf();
    AddressChunk1Text();
    SplitHalves(s, ["V16", "U14", "V14", "V12"], ["P14", "U16", "R15", "N14"]);
  }

  lemma AddressChunk1()
    ensures Split("V16 U14 V14 V12 P14 U16 R15 N14") == ["V16", "U14", "V14", "V12", "P14", "U16", "R15", "N14"]
  {
    AddressChunk1Of("V16 U14 V14 V12 P14 U16 R15 N14");
  }

  lemma AddressChunk2FirstHalf()
    ensures Join(["N16", "M13", "V17", "U17"]) == "N16 M13 V17 U17" && Words(["N16", "M13", "V17", "U17"])
  {
  }

  lemma AddressChunk2SecondHalf()
    ensures Join(["T10", "M16", "U13"]) == "T10 M16 U13" && Words(["T10", "M16", "U13"])
  {
  }

  lemma AddressChunk2Text()
    ensures "N16 M13 V17 U17 T10 M16 U13" == "N16 M13 V17 U17" + " " + "T10 M16 U13"
  {
  }

  lemma AddressChunk2Of(s: string)
    requires s == "N16 M13 V17 U17 T10 M16 U13"
    ensures Split(s) == ["N16", "M13", "V17", "U17", "T10", "M16", "U13"]
  {
    AddressChunk2FirstHalf();
    AddressChunk2SecondHalf();
    AddressChunk2Text();
    SplitHalves(s, ["N16", "M13", "V17", "U17"], ["T10", "M16", "U13"]);
  }

  lemma AddressChunk2()
    ensures Split("N16 M13 V17 U17 T10 M16 U13") == ["N16", "M13", "V17", "U17", "T10", "M16", "U13"]
  {
    AddressChunk2Of("N16 M13 V17 U17 T10 M16 U13");
  }

  lemma DataChunk0FirstHalf()
    ensures Join(["R12", "T11", "U12", "R13"]) == "R12 T11 U12 R13" && Words(["R12", "T11", "U12", "R13"])
  {
  }

  lemma DataChunk0SecondHalf()
    ensures Join(["U18", "R17", "T18", "R18"]) == "U18 R17 T18 R18" && Words(["U18", "R17", "T18", "R18"])
  {
  }

  lemma DataChunk0Text()
    ensures "R12 T11 U12 R13 U18 R17 T18 R18" == "R12 T11 U12 R13" + " " + "U18 R17 T18 R18"
  {
  }

  lemma DataChunk0Of(s: string)
    requires s == "R12 T11 U12 R13 U18 R17 T18 R18"
    ensures Split(s) == ["R12", "T11", "U12", "R13", "U18", "R17", "T18", "R18"]
  {
    DataChunk0FirstHalf();
    DataChunk0SecondHalf();
    DataChunk0Text();
    SplitHalves(s, ["R12", "T11", "U12", "R13"], ["U18", "R17", "T18", "R18"]);
  }

  lemma DataChunk0()
    ensures Split("R12 T11 U12 R13 U18 R17 T18 R18") == ["R12", "T11", "U12", "R13", "U18", "R17", "T18", "R18"]
  {
    DataChunk0Of("R12 T11 U12 R13 U18 R17 T18 R18");
  }

  lemma DataChunk1FirstHalf()
    ensures Join(["F18", "G18", "G17", "M18"]) == "F18 G18 G17 M18" && Words(["F18", "G18", "G17", "M18"])
  {
  }

  lemma DataChunk1SecondHalf()
    ensures Join(["M17", "P18", "N17", "P17"]) == "M17 P18 N17 P17" && Words(["M17", "P18", "N17", "P17"])
  {
  }

  lemma DataChunk1Text()
    ensures "F18 G18 G17 M18 M17 P18 N17 P17" == "F18 G18 G17 M18" + " " + "M17 P18 N17 P17"
  {
  }

  lemma DataChunk1Of(s: string)
    requires s == "F18 G18 G17 M18 M17 P18 N17 P17"
    ensures Split(s) == ["F18", "G18", "G17", "M18", "M17", "P18", "N17", "P17"]
  {
    DataChunk1FirstHalf();
    DataChunk1SecondHalf();
    DataChunk1Text();
    SplitHalves(s, ["F18", "G18", "G17", "M18"], ["M17", "P18", "N17", "P17"]);
  }

  lemma DataChunk1()
    ensures Split("F18 G18 G17 M18 M17 P18 N17 P17") == ["F18", "G18", "G17", "M18", "M17", "P18", "N17", "P17"]
  {
    DataChunk1Of("F18 G18 G17 M18 M17 P18 N17 P17");
  }

  lemma DdrAddressChunk0FirstHalf()
    ensures Join(["M4", "P4", "M6", "T1"]) == "M4 P4 M6 T1" && Words(["M4", "P4", "M6", "T1"])
  {
  }

  lemma DdrAddressChunk0SecondHalf()
    ensures Join(["L3", "P5", "M2", "N1"]) == "L3 P5 M2 N1" && Words(["L3", "P5", "M2", "N1"])
  {
  }

  lemma DdrAddressChunk0Text()
    ensures "M4 P4 M6 T1 L3 P5 M2 N1" == "M4 P4 M6 T1" + " " + "L3 P5 M2 N1"
  {
  }

  lemma DdrAddressChunk0Of(s: string)
    requires s == "M4 P4 M6 T1 L3 P5 M2 N1"
    ensures Split(s) == ["M4", "P4", "M6", "T1", "L3", "P5", "M2", "N1"]
  {
    DdrAddressChunk0FirstHalf();
    DdrAddressChunk0SecondHalf();
    DdrAddressChunk0Text();
    SplitHalves(s, ["M4", "P4", "M6", "T1"], ["L3", "P5", "M2", "N1"]);
  }

  lemma DdrAddressChunk0()
    ensures Split("M4 P4 M6 T1 L3 P5 M2 N1") == ["M4", "P4", "M6", "T1", "L3", "P5", "M2", "N1"]
  {
    DdrAddressChunk0Of("M4 P4 M6 T1 L3 P5 M2 N1");
  }

  lemma DdrAddressChunk1FirstHalf()
    ensures Join(["L4", "N5", "R2"]) == "L4 N5 R2" && Words(["L4", "N5", "R2"])
  {
  }

  lemma DdrAddressChunk1SecondHalf()
    ensures Join(["K5", "N6"]) == "K5 N6" && Words(["K5", "N6"])
  {
  }

  lemma DdrAddressChunk1Text()
    ensures "L4 N5 R2 K5 N6" == "L4 N5 R2" + " " + "K5 N6"
  {
  }

  lemma DdrAddressChunk1Of(s: string)
    requires s == "L4 N5 R2 K5 N6"
    ensures Split(s) == ["L4", "N5", "R2", "K5", "N6"]
  {
    DdrAddressChunk1FirstHalf();
    DdrAddressChunk1SecondHalf();
    DdrAddressChunk1Text();
    SplitHalves(s, ["L4", "N5", "R2"], ["K5", "N6"]);
  }

  lemma DdrAddressChunk1()
    ensures Split("L4 N5 R2 K5 N6") == ["L4", "N5", "R2", "K5", "N6"]
  {
    DdrAddressChunk1Of("L4 N5 R2 K5 N6");
  }

  lemma DdrDataChunk0FirstHalf()
    ensures Join(["R7", "V6", "R8", "U7"]) == "R7 V6 R8 U7" && Words(["R7", "V6", "R8", "U7"])
  {
  }

  lemma DdrDataChunk0SecondHalf()
    ensures Join(["V7", "R6", "U6", "R5"]) == "V7 R6 U6 R5" && Words(["V7", "R6", "U6", "R5"])
  {
  }

  lemma DdrDataChunk0Text()
    ensures "R7 V6 R8 U7 V7 R6 U6 R5" == "R7 V6 R8 U7" + " " + "V7 R6 U6 R5"
  {
  }

  lemma DdrDataChunk0Of(s: string)
    requires s == "R7 V6 R8 U7 V7 R6 U6 R5"
    ensures Split(s) == ["R7", "V6", "R8", "U7", "V7", "R6", "U6", "R5"]
  {
    DdrDataChunk0FirstHalf();
    DdrDataChunk0SecondHalf();
    DdrDataChunk0Text();
    SplitHalves(s, ["R7", "V6", "R8", "U7"], ["V7", "R6", "U6", "R5"]);
  }

  lemma DdrDataChunk0()
    ensures Split("R7 V6 R8 U7 V7 R6 U6 R5") == ["R7", "V6", "R8", "U7", "V7", "R6", "U6", "R5"]
  {
    DdrDataChunk0Of("R7 V6 R8 U7 V7 R6 U6 R5");
  }

  lemma DdrDataChunk1FirstHalf()
    ensures Join(["T5", "U3", "V5", "U4"]) == "T5 U3 V5 U4" && Words(["T5", "U3", "V5", "U4"])
  {
  }

  lemma DdrDataChunk1SecondHalf()
    ensures Join(["V4", "T4", "V1", "T3"]) == "V4 T4 V1 T3" && Words(["V4", "T4", "V1", "T3"])
  {
  }

  lemma DdrDataChunk1Text()
    ensures "T5 U3 V5 U4 V4 T4 V1 T3" == "T5 U3 V5 U4" + " " + "V4 T4 V1 T3"
  {
  }

  lemma DdrDataChunk1Of(s: string)
    requires s == "T5 U3 V5 U4 V4 T4 V1 T3"
    ensures Split(s) == ["T5", "U3", "V5", "U4", "V4", "T4", "V1", "T3"]
  {
    DdrDataChunk1FirstHalf();
    DdrDataChunk1SecondHalf();
    DdrDataChunk1Text();
    SplitHalves(s, ["T5", "U3", "V5", "U4"], ["V4", "T4", "V1", "T3"]);
  }

  lemma DdrDataChunk1()
    ensures Split("T5 U3 V5 U4 V4 T4 V1 T3") == ["T5", "U3", "V5", "U4", "V4", "T4", "V1", "T3"]
  {
    DdrDataChunk1Of("T5 U3 V5 U4 V4 T4 V1 T3");
  }

  lemma PmodAFirstHalf()
    ensures Join(["C17", "D18", "E18", "G17"]) == "C17 D18 E18 G17" && Words(["C17", "D18", "E18", "G17"])
  {
  }

  lemma PmodASecondHalf()
    ensures Join(["D17", "E17", "F18", "G18"]) == "D17 E17 F18 G18" && Words(["D17", "E17", "F18", "G18"])
  {
  }

  lemma PmodAText()
    ensures "C17 D18 E18 G17 D17 E17 F18 G18" == "C17 D18 E18 G17" + " " + "D17 E17 F18 G18"
  {
  }

  lemma PmodAOf(s: string)
    requires s == "C17 D18 E18 G17 D17 E17 F18 G18"
    ensures Split(s) == ["C17", "D18", "E18", "G17", "D17", "E17", "F18", "G18"]
  {
    PmodAFirstHalf();
    PmodASecondHalf();
    PmodAText();
    SplitHalves(s, ["C17", "D18", "E18", "G17"], ["D17", "E17", "F18", "G18"]);
  }

  lemma PmodA()
    ensures Split("C17 D18 E18 G17 D17 E17 F18 G18") == ["C17", "D18", "E18", "G17", "D17", "E17", "F18", "G18"]
  {
    PmodAOf("C17 D18 E18 G17 D17 E17 F18 G18");
  }

  lemma PmodBFirstHalf()
    ensures Join(["D14", "F16", "G16", "H14"]) == "D14 F16 G16 H14" && Words(["D14", "F16", "G16", "H14"])
  {
  }

  lemma PmodBSecondHalf()
    ensures Join(["E16", "F13", "G13", "H16"]) == "E16 F13 G13 H16" && Words(["E16", "F13", "G13", "H16"])
  {
  }

  lemma PmodBText()
    ensures "D14 F16 G16 H14 E16 F13 G13 H16" == "D14 F16 G16 H14" + " " + "E16 F13 G13 H16"
  {
  }

  lemma PmodBOf(s: string)
    requires s == "D14 F16 G16 H14 E16 F13 G13 H16"
    ensures Split(s) == ["D14", "F16", "G16", "H14", "E16", "F13", "G13", "H16"]
  {
    PmodBFirstHalf();
    PmodBSecondHalf();
    PmodBText();
    SplitHalves(s, ["D14", "F16", "G16", "H14"], ["E16", "F13", "G13", "H16"]);
  }

  lemma PmodB()
    ensures Split("D14 F16 G16 H14 E16 F13 G13 H16") == ["D14", "F16", "G16", "H14", "E16", "F13", "G13", "H16"]
  {
    PmodBOf("D14 F16 G16 H14 E16 F13 G13 H16");
  }

  lemma PmodCFirstHalf()
    ensures Join(["K1", "F6", "J2", "G6"]) == "K1 F6 J2 G6" && Words(["K1", "F6", "J2", "G6"])
  {
  }

  lemma PmodCSecondHalf()
    ensures Join(["E7", "J3", "J4", "E6"]) == "E7 J3 J4 E6" && Words(["E7", "J3", "J4", "E6"])
  {
  }

  lemma PmodCText()
    ensures "K1 F6 J2 G6 E7 J3 J4 E6" == "K1 F6 J2 G6" + " " + "E7 J3 J4 E6"
  {
  }

  lemma PmodCOf(s: string)
    requires s == "K1 F6 J2 G6 E7 J3 J4 E6"
    ensures Split(s) == ["K1", "F6", "J2", "G6", "E7", "J3", "J4", "E6"]
  {
    PmodCFirstHalf();
    PmodCSecondHalf();
    PmodCText();
    SplitHalves(s, ["K1", "F6", "J2", "G6"], ["E7", "J3", "J4", "E6"]);
  }

  lemma PmodC()
    ensures Split("K1 F6 J2 G6 E7 J3 J4 E6") == ["K1", "F6", "J2", "G6", "E7", "J3", "J4", "E6"]
  {
    PmodCOf("K1 F6 J2 G6 E7 J3 J4 E6");
  }

  lemma PmodDFirstHalf()
    ensures Join(["H4", "H1", "G1", "G3"]) == "H4 H1 G1 G3" && Words(["H4", "H1", "G1", "G3"])
  {
  }

  lemma PmodDSecondHalf()
    ensures Join(["H2", "G4", "G2", "F3"]) == "H2 G4 G2 F3" && Words(["H2", "G4", "G2", "F3"])
  {
  }

  lemma PmodDText()
    ensures "H4 H1 G1 G3 H2 G4 G2 F3" == "H4 H1 G1 G3" + " " + "H2 G4 G2 F3"
  {
  }

  lemma PmodDOf(s: string)
    requires s == "H4 H1 G1 G3 H2 G4 G2 F3"
    ensures Split(s) == ["H4", "H1", "G1", "G3", "H2", "G4", "G2", "F3"]
  {
    PmodDFirstHalf();
    PmodDSecondHalf();
    PmodDText();
    SplitHalves(s, ["H4", "H1", "G1", "G3"], ["H2", "G4", "G2", "F3"]);
  }

  lemma PmodD()
    ensures Split("H4 H1 G1 G3 H2 G4 G2 F3") == ["H4", "H1", "G1", "G3", "H2", "G4", "G2", "F3"]
  {
    PmodDOf("H4 H1 G1 G3 H2 G4 G2 F3");
  }

  lemma PmodXdacFirstHalf()
    ensures Join(["A14", "A13", "A16", "A15"]) == "A14 A13 A16 A15" && Words(["A14", "A13", "A16", "A15"])
  {
  }

  lemma PmodXdacSecondHalf()
    ensures Join(["B17", "B16", "A18", "B18"]) == "B17 B16 A18 B18" && Words(["B17", "B16", "A18", "B18"])
  {
  }

  lemma PmodXdacText()
    ensures "A14 A13 A16 A15 B17 B16 A18 B18" == "A14 A13 A16 A15" + " " + "B17 B16 A18 B18"
  {
  }

  lemma PmodXdacOf(s: string)
    requires s == "A14 A13 A16 A15 B17 B16 A18 B18"
    ensures Split(s) == ["A14", "A13", "A16", "A15", "B17", "B16", "A18", "B18"]
  {
    PmodXdacFirstHalf();
    PmodXdacSecondHalf();
    PmodXdacText();
    SplitHalves(s, ["A14", "A13", "A16", "A15"], ["B17", "B16", "A18", "B18"]);
  }

  lemma PmodXdac()
    ensures Split("A14 A13 A16 A15 B17 B16 A18 B18") == ["A14", "A13", "A16", "A15", "B17", "B16", "A18", "B18"]
  {
    PmodXdacOf("A14 A13 A16 A15 B17 B16 A18 B18");
  }

  /** The cellular RAM address bus: its pin strings name 23 pins, in the order written. */
  lemma CellularRamAddressPins()
    ensures Identifiers(Pins([
              "J18 H17 H15 J17 H16 K15 K13 N15",
              "V16 U14 V14 V12 P14 U16 R15 N14",
              "N16 M13 V17 U17 T10 M16 U13"]))
            == ["J18", "H17", "H15", "J17", "H16", "K15", "K13", "N15"]
               + (["V16", "U14", "V14", "V12", "P14", "U16", "R15", "N14"]
                  + ["N16", "M13", "V17", "U17", "T10", "M16", "U13"])
  {
    AddressChunk0();
    AddressChunk1();
    AddressChunk2();
    ThreeStrings("J18 H17 H15 J17 H16 K15 K13 N15", "V16 U14 V14 V12 P14 U16 R15 N14", "N16 M13 V17 U17 T10 M16 U13");
  }

  /** The cellular RAM data bus: its pin strings name 16 pins, in the order written. */
  lemma CellularRamDataPins()
    ensures Identifiers(Pins([
              "R12 T11 U12 R13 U18 R17 T18 R18",
              "F18 G18 G17 M18 M17 P18 N17 P17"]))
            == ["R12", "T11", "U12", "R13", "U18", "R17", "T18", "R18"]
               + ["F18", "G18", "G17", "M18", "M17", "P18", "N17", "P17"]
  {
    DataChunk0();
    DataChunk1();
    TwoStrings("R12 T11 U12 R13 U18 R17 T18 R18", "F18 G18 G17 M18 M17 P18 N17 P17");
  }

  /** The DDR2 address bus: its pin strings name 13 pins, in the order written. */
  lemma DdrAddressPins()
    ensures Identifiers(Pins([
              "M4 P4 M6 T1 L3 P5 M2 N1",
              "L4 N5 R2 K5 N6"]))
            == ["M4", "P4", "M6", "T1", "L3", "P5", "M2", "N1"]
               + ["L4", "N5", "R2", "K5", "N6"]
  {
    DdrAddressChunk0();
    DdrAddressChunk1();
    TwoStrings("M4 P4 M6 T1 L3 P5 M2 N1", "L4 N5 R2 K5 N6");
  }

  /** The DDR2 data bus: its pin strings name 16 pins, in the order written. */
  lemma DdrDataPins()
    ensures Identifiers(Pins([
              "R7 V6 R8 U7 V7 R6 U6 R5",
              "T5 U3 V5 U4 V4 T4 V1 T3"]))
            == ["R7", "V6", "R8", "U7", "V7", "R6", "U6", "R5"]
               + ["T5", "U3", "V5", "U4", "V4", "T4", "V1", "T3"]
  {
    DdrDataChunk0();
    DdrDataChunk1();
    TwoStrings("R7 V6 R8 U7 V7 R6 U6 R5", "T5 U3 V5 U4 V4 T4 V1 T3");
  }
}

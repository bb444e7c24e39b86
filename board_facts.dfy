/**
 * Facts about the Nexys A7 resource table: its `(name, index)` pairs are unique, each
 * repeated name is numbered from 0 without gaps, and the entries the concrete lookups
 * start from are the first of their names.
 */
module NexysA7Facts {
  import opened Results
  import opened PinText
  import opened Connectors
  import opened Resources
  import opened NexysA7
  import opened NexysA7Text

  // ---------------------------------------------------------------------------------------
  // Unique keys, numbered runs

  lemma ClockResetUnique()
    ensures UniqueKeys(ClockReset) && NamedFrom(ClockReset, SectionNames[0])
  {
  }

  lemma CathodesUnique()
    ensures UniqueKeys(SegmentCathodes) && NamedFrom(SegmentCathodes, SectionNames[3])
  {
  }

  lemma SerialUnique()
    ensures UniqueKeys(SerialPort) && NamedFrom(SerialPort, SectionNames[7])
  {
  }

  lemma SdCardsUnique()
    ensures UniqueKeys(SdCards) && NamedFrom(SdCards, SectionNames[8])
  {
  }

  lemma MemoriesUnique()
    ensures UniqueKeys(Memories) && NamedFrom(Memories, SectionNames[9])
  {
  }

  lemma PeripheralsUnique()
    ensures UniqueKeys(Peripherals) && NamedFrom(Peripherals, SectionNames[10])
  {
  }

  lemma LedRuns()
    ensures Run(UserLeds, "user_led") && |UserLeds| == 16
    ensures Run(SegmentAnodes, "segled_an") && |SegmentAnodes| == 8
    ensures Run(RgbLeds, "rgb_led") && |RgbLeds| == 2
  {
  }

  lemma SwitchButtonRuns()
    ensures Run(UserSwitches, "user_sw") && |UserSwitches| == 16
    ensures Run(UserButtons, "user_btn") && |UserButtons| == 5
  {
  }

  /** Every section has unique keys and takes its names from its own name set. */
  lemma SectionsNamed()
    ensures |SectionNames| == |Sections|
    ensures forall j | 0 <= j < |Sections| :: UniqueKeys(Sections[j]) && NamedFrom(Sections[j], SectionNames[j])
  {
    ClockResetUnique();
    CathodesUnique();
    SerialUnique();
    SdCardsUnique();
    MemoriesUnique();
    PeripheralsUnique();
    LedRuns();
    SwitchButtonRuns();
    RunUnique(UserLeds, "user_led");
    RunUnique(SegmentAnodes, "segled_an");
    RunUnique(RgbLeds, "rgb_led");
    RunUnique(UserSwitches, "user_sw");
    RunUnique(UserButtons, "user_btn");
  }

  /** No two entries of the resource table share a `(name, index)` pair (physical pins, on
   *  the other hand, are shared: the on-board SD slot appears as `spisdcard` and `sdcard`). */
  lemma IoKeysUnique()
    ensures UniqueKeys(Io)
  {
    SectionsNamed();
    SectionNamesDisjoint();
    FlattenUnique(Sections, SectionNames);
  }

  /** The numbered runs of the table: the section holding each and its length. */
  const RunSection: map<string, nat> :=
    map["user_led" := 1, "segled_an" := 2, "rgb_led" := 4, "user_sw" := 5, "user_btn" := 6]
  const RunLength: map<string, nat> :=
    map["user_led" := 16, "segled_an" := 8, "rgb_led" := 2, "user_sw" := 16, "user_btn" := 5]

  lemma RunSectionIs(name: string)
    requires name in RunSection
    ensures RunSection[name] < |Sections| && name in RunLength
    ensures Run(Sections[RunSection[name]], name) && |Sections[RunSection[name]]| == RunLength[name]
  {
    LedRuns();
    SwitchButtonRuns();
  }

  lemma RunNameOnlyThere(name: string)
    requires name in RunSection
    ensures forall j | 0 <= j < |SectionNames| && j != RunSection[name] :: name !in SectionNames[j]
  {
  }

  /** Each repeated name of the table is numbered from 0 without gaps, in table order:
   *  `user_led` 0..15, `segled_an` 0..7, `rgb_led` 0..1, `user_sw` 0..15, `user_btn` 0..4. */
  lemma RunsContiguous(name: string)
    requires name in RunSection
    ensures name in RunLength && IndicesOf(Io, name) == Upto(RunLength[name])
  {
    SectionsNamed();
    RunSectionIs(name);
    RunNameOnlyThere(name);
    var k := RunSection[name];
    FlattenIndices(Sections, SectionNames, k, name);
    IndicesOfRun(Sections[k], name, 0);
  }

  // ---------------------------------------------------------------------------------------
  // Entries the concrete lookups start from

  /** Sub-signal `s` of entry `j` of section `k` is `name:sub` with pins `p`, and it is what
   *  a lookup of `name:sub` finds first: no earlier section uses `name`, no earlier entry
   *  of the section is `name`, no earlier sub-signal of the entry is `sub`. */
  predicate FirstPart(k: nat, j: nat, s: nat, name: string, sub: string, p: Pins) {
    && k < |Sections| && j < |Sections[k]| && Sections[k][j].Compound?
    && s < |Sections[k][j].subsignals|
    && Sections[k][j].name == name && Sections[k][j].subsignals[s].name == sub
    && Sections[k][j].subsignals[s].pins == p
    && (forall i | 0 <= i < k :: name !in SectionNames[i])
    && (forall i | 0 <= i < j :: Sections[k][i].name != name)
    && (forall i | 0 <= i < s :: Sections[k][j].subsignals[i].name != sub)
  }

  lemma CellularRamAddressFirst()
    ensures FirstPart(9, 0, 0, "cellularram", "addr", Pins(["J18 H17 H15 J17 H16 K15 K13 N15", "V16 U14 V14 V12 P14 U16 R15 N14", "N16 M13 V17 U17 T10 M16 U13"]))
  {
    NotBefore("cellularram", 9);
  }

  lemma CellularRamDataFirst()
    ensures FirstPart(9, 0, 1, "cellularram", "data", Pins(["R12 T11 U12 R13 U18 R17 T18 R18", "F18 G18 G17 M18 M17 P18 N17 P17"]))
  {
    NotBefore("cellularram", 9);
  }

  lemma DdrAddressFirst()
    ensures FirstPart(9, 1, 0, "ddram", "a", Pins(["M4 P4 M6 T1 L3 P5 M2 N1", "L4 N5 R2 K5 N6"]))
  {
    NotBefore("ddram", 9);
  }

  lemma DdrDataFirst()
    ensures FirstPart(9, 1, 7, "ddram", "dq", Pins(["R7 V6 R8 U7 V7 R6 U6 R5", "T5 U3 V5 U4 V4 T4 V1 T3"]))
  {
    NotBefore("ddram", 9);
  }

  lemma RefClkFirst()
    ensures FirstPart(10, 0, 0, "eth_clocks", "ref_clk", Pins(["D5"]))
  {
    NotBefore("eth_clocks", 10);
  }
}

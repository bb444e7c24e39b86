/**
 * The Nexys A7 I/O resource table, written as the concatenation of its sections (clock
 * and reset, LEDs, seven-segment display, switches, buttons, serial, SD card, memories,
 * peripherals), in the order the board file lists them.
 */
module NexysA7 {
  import opened Results
  import opened PinText
  import opened Connectors
  import opened Resources

  // Clk / Rst
  const ClockReset: seq<Resource> := [
    Simple("clk100", 0, Pins(["E3"]), [IOStandard("LVCMOS33")]),
    Simple("cpu_reset", 0, Pins(["C12"]), [IOStandard("LVCMOS33")])
  ]

  // Leds
  const UserLeds: seq<Resource> := [
    Simple("user_led", 0, Pins(["H17"]), [IOStandard("LVCMOS33")]),
    Simple("user_led", 1, Pins(["K15"]), [IOStandard("LVCMOS33")]),
    Simple("user_led", 2, Pins(["J13"]), [IOStandard("LVCMOS33")]),
    Simple("user_led", 3, Pins(["N14"]), [IOStandard("LVCMOS33")]),
    Simple("user_led", 4, Pins(["R18"]), [IOStandard("LVCMOS33")]),
    Simple("user_led", 5, Pins(["V17"]), [IOStandard("LVCMOS33")]),
    Simple("user_led", 6, Pins(["U17"]), [IOStandard("LVCMOS33")]),
    Simple("user_led", 7, Pins(["U16"]), [IOStandard("LVCMOS33")]),
    Simple("user_led", 8, Pins(["V16"]), [IOStandard("LVCMOS33")]),
    Simple("user_led", 9, Pins(["T15"]), [IOStandard("LVCMOS33")]),
    Simple("user_led", 10, Pins(["U14"]), [IOStandard("LVCMOS33")]),
    Simple("user_led", 11, Pins(["T16"]), [IOStandard("LVCMOS33")]),
    Simple("user_led", 12, Pins(["V15"]), [IOStandard("LVCMOS33")]),
    Simple("user_led", 13, Pins(["V14"]), [IOStandard("LVCMOS33")]),
    Simple("user_led", 14, Pins(["V12"]), [IOStandard("LVCMOS33")]),
    Simple("user_led", 15, Pins(["V11"]), [IOStandard("LVCMOS33")])
  ]

  // 7SEG DISPLAY: digit anodes
  const SegmentAnodes: seq<Resource> := [
    Simple("segled_an", 0, Pins(["J17"]), [IOStandard("LVCMOS33")]),
    Simple("segled_an", 1, Pins(["J18"]), [IOStandard("LVCMOS33")]),
    Simple("segled_an", 2, Pins(["T9 "]), [IOStandard("LVCMOS33")]),
    Simple("segled_an", 3, Pins(["J14"]), [IOStandard("LVCMOS33")]),
    Simple("segled_an", 4, Pins(["P14"]), [IOStandard("LVCMOS33")]),
    Simple("segled_an", 5, Pins(["T14"]), [IOStandard("LVCMOS33")]),
    Simple("segled_an", 6, Pins(["K2 "]), [IOStandard("LVCMOS33")]),
    Simple("segled_an", 7, Pins(["U13"]), [IOStandard("LVCMOS33")])
  ]

  // 7SEG DISPLAY: segment cathodes and decimal point
  const SegmentCathodes: seq<Resource> := [
    Simple("segled_ca", 0, Pins(["T10"]), [IOStandard("LVCMOS33")]),
    Simple("segled_cb", 0, Pins(["R10"]), [IOStandard("LVCMOS33")]),
    Simple("segled_cc", 0, Pins(["K16"]), [IOStandard("LVCMOS33")]),
    Simple("segled_cd", 0, Pins(["K13"]), [IOStandard("LVCMOS33")]),
    Simple("segled_ce", 0, Pins(["P15"]), [IOStandard("LVCMOS33")]),
    Simple("segled_cf", 0, Pins(["T11"]), [IOStandard("LVCMOS33")]),
    Simple("segled_cg", 0, Pins(["L18"]), [IOStandard("LVCMOS33")]),
    Simple("segled_dp", 0, Pins(["H15"]), [IOStandard("LVCMOS33")])
  ]

  const RgbLeds: seq<Resource> := [
    Compound("rgb_led", 0, [
      Subsignal("r", Pins(["N15"]), []),
      Subsignal("g", Pins(["M16"]), []),
      Subsignal("b", Pins(["R12"]), [])],
      [IOStandard("LVCMOS33")]),
    Compound("rgb_led", 1, [
      Subsignal("r", Pins(["N16"]), []),
      Subsignal("g", Pins(["R11"]), []),
      Subsignal("b", Pins(["G14"]), [])],
      [IOStandard("LVCMOS33")])
  ]

  // Switches
  const UserSwitches: seq<Resource> := [
    Simple("user_sw", 0, Pins(["J15"]), [IOStandard("LVCMOS33")]),
    Simple("user_sw", 1, Pins(["L16"]), [IOStandard("LVCMOS33")]),
    Simple("user_sw", 2, Pins(["M13"]), [IOStandard("LVCMOS33")]),
    Simple("user_sw", 3, Pins(["R15"]), [IOStandard("LVCMOS33")]),
    Simple("user_sw", 4, Pins(["R17"]), [IOStandard("LVCMOS33")]),
    Simple("user_sw", 5, Pins(["T18"]), [IOStandard("LVCMOS33")]),
    Simple("user_sw", 6, Pins(["U18"]), [IOStandard("LVCMOS33")]),
    Simple("user_sw", 7, Pins(["R13"]), [IOStandard("LVCMOS33")]),
    Simple("user_sw", 8, Pins(["T8 "]), [IOStandard("LVCMOS33")]),
    Simple("user_sw", 9, Pins(["U8 "]), [IOStandard("LVCMOS33")]),
    Simple("user_sw", 10, Pins(["R16"]), [IOStandard("LVCMOS33")]),
    Simple("user_sw", 11, Pins(["T13"]), [IOStandard("LVCMOS33")]),
    Simple("user_sw", 12, Pins(["H6 "]), [IOStandard("LVCMOS33")]),
    Simple("user_sw", 13, Pins(["U12"]), [IOStandard("LVCMOS33")]),
    Simple("user_sw", 14, Pins(["U11"]), [IOStandard("LVCMOS33")]),
    Simple("user_sw", 15, Pins(["V10"]), [IOStandard("LVCMOS33")])
  ]

  // Buttons
  const UserButtons: seq<Resource> := [
    Simple("user_btn", 0, Pins(["N17"]), [IOStandard("LVCMOS33")]),
    Simple("user_btn", 1, Pins(["M18"]), [IOStandard("LVCMOS33")]),
    Simple("user_btn", 2, Pins(["P17"]), [IOStandard("LVCMOS33")]),
    Simple("user_btn", 3, Pins(["M17"]), [IOStandard("LVCMOS33")]),
    Simple("user_btn", 4, Pins(["P18"]), [IOStandard("LVCMOS33")])
  ]

  // Serial
  const SerialPort: seq<Resource> := [
    Compound("serial", 0, [
      Subsignal("tx", Pins(["D4"]), []),
      Subsignal("rx", Pins(["C4"]), [])],
      [IOStandard("LVCMOS33")])
  ]

  // SDCard (on-board slot)
  const SdCards: seq<Resource> := [
    Compound("spisdcard", 0, [
      Subsignal("rst",  Pins(["E2"]), []),
      Subsignal("clk",  Pins(["B1"]), []),
      Subsignal("mosi", Pins(["C1"]), [Misc("PULLUP True")]),
      Subsignal("cs_n", Pins(["D2"]), [Misc("PULLUP True")]),
      Subsignal("miso", Pins(["C2"]), [Misc("PULLUP True")])],
      [Misc("SLEW=FAST"), IOStandard("LVCMOS33")]),
    Compound("sdcard", 0, [
      Subsignal("rst",  Pins(["E2"]),          [Misc("PULLUP True")]),
      Subsignal("data", Pins(["C2 E1 F1 D2"]), [Misc("PULLUP True")]),
      Subsignal("cmd",  Pins(["C1"]),          [Misc("PULLUP True")]),
      Subsignal("clk",  Pins(["B1"]),          []),
      Subsignal("cd",   Pins(["A1"]),          [])],
      [Misc("SLEW=FAST"), IOStandard("LVCMOS33")])
  ]

  // SRAM and DDR2 SDRAM
  const Memories: seq<Resource> := [
    Compound("cellularram", 0, [
      Subsignal("addr", Pins([
        "J18 H17 H15 J17 H16 K15 K13 N15",
        "V16 U14 V14 V12 P14 U16 R15 N14",
        "N16 M13 V17 U17 T10 M16 U13"]), []),
      Subsignal("data", Pins([
        "R12 T11 U12 R13 U18 R17 T18 R18",
        "F18 G18 G17 M18 M17 P18 N17 P17"]), []),
      Subsignal("oen",  Pins(["H14"]), []),
      Subsignal("wen",  Pins(["R11"]), []),
      Subsignal("clk",  Pins(["T15"]), []),
      Subsignal("adv",  Pins(["T13"]), []),
      Subsignal("wait", Pins(["T14"]), []),
      Subsignal("cen",  Pins(["L18"]), []),
      Subsignal("ub",   Pins(["J13"]), []),
      Subsignal("lb",   Pins(["J15"]), []),
      Subsignal("cre",  Pins(["J14"]), [])],
      [Misc("SLEW=FAST"), IOStandard("LVCMOS33")]),
    Compound("ddram", 0, [
      Subsignal("a", Pins([
        "M4 P4 M6 T1 L3 P5 M2 N1",
        "L4 N5 R2 K5 N6"]), [IOStandard("SSTL18_II")]),
      Subsignal("ba",    Pins(["P2 P3 R1"]), [IOStandard("SSTL18_II")]),
      Subsignal("ras_n", Pins(["N4"]), [IOStandard("SSTL18_II")]),
      Subsignal("cas_n", Pins(["L1"]), [IOStandard("SSTL18_II")]),
      Subsignal("we_n",  Pins(["N2"]), [IOStandard("SSTL18_II")]),
      Subsignal("cs_n",  Pins(["K6"]), [IOStandard("SSTL18_II")]),
      Subsignal("dm",    Pins(["U1 T6"]), [IOStandard("SSTL18_II")]),
      Subsignal("dq", Pins([
        "R7 V6 R8 U7 V7 R6 U6 R5",
        "T5 U3 V5 U4 V4 T4 V1 T3"]),
        [IOStandard("SSTL18_II"), Misc("IN_TERM=UNTUNED_SPLIT_40")]),
      Subsignal("dqs_p", Pins(["U9 U2"]),
        [IOStandard("DIFF_SSTL18_II"), Misc("IN_TERM=UNTUNED_SPLIT_40")]),
      Subsignal("dqs_n", Pins(["V9 V2"]),
        [IOStandard("DIFF_SSTL18_II"), Misc("IN_TERM=UNTUNED_SPLIT_40")]),
      Subsignal("clk_p", Pins(["L6"]), [IOStandard("DIFF_SSTL18_II")]),
      Subsignal("clk_n", Pins(["L5"]), [IOStandard("DIFF_SSTL18_II")]),
      Subsignal("cke",   Pins(["M1"]), [IOStandard("SSTL18_II")]),
      Subsignal("odt",   Pins(["M3"]), [IOStandard("SSTL18_II")])],
      [Misc("SLEW=FAST")])
  ]

  // RMII Ethernet, audio PWM and VGA
  const Peripherals: seq<Resource> := [
    Compound("eth_clocks", 0, [
      Subsignal("ref_clk", Pins(["D5"]), [])],
      [IOStandard("LVCMOS33")]),
    Compound("aud_pwm", 0, [
      Subsignal("pwm_out", Pins(["A11"]), []),
      Subsignal("enable",  Pins(["D12"]), [])],
      [IOStandard("LVCMOS33")]),
    Compound("eth", 0, [
      Subsignal("rst_n",   Pins(["B3"]), []),
      Subsignal("rx_data", Pins(["C11 D10"]), []),
      Subsignal("crs_dv",  Pins(["D9"]), []),
      Subsignal("tx_en",   Pins(["B9"]), []),
      Subsignal("tx_data", Pins(["A10 A8"]), []),
      Subsignal("mdc",     Pins(["C9"]), []),
      Subsignal("mdio",    Pins(["A9"]), []),
      Subsignal("rx_er",   Pins(["C10"]), []),
      Subsignal("int_n",   Pins(["B8"]), [])],
      [IOStandard("LVCMOS33")]),
    Compound("vga", 0, [
      Subsignal("hsync_n", Pins(["B11"]), []),
      Subsignal("vsync_n", Pins(["B12"]), []),
      Subsignal("r", Pins(["A3 B4 C5 A4"]), []),
      Subsignal("g", Pins(["C6 A5 B6 A6"]), []),
      Subsignal("b", Pins(["B7 C7 D7 D8"]), [])],
      [IOStandard("LVCMOS33")])
  ]

  /** The sections of the resource table, in the board file's order. */
  const Sections: seq<seq<Resource>> := [
    ClockReset, UserLeds, SegmentAnodes, SegmentCathodes, RgbLeds, UserSwitches,
    UserButtons, SerialPort, SdCards, Memories, Peripherals
  ]

  /** The board's I/O resource table: its sections one after the other. */
  const Io: seq<Resource> := Flatten(Sections)

  /** The names each section of the table uses, section by section. */
  const SectionNames: seq<set<string>> := [
    {"clk100", "cpu_reset"},
    {"user_led"},
    {"segled_an"},
    {"segled_ca", "segled_cb", "segled_cc", "segled_cd", "segled_ce", "segled_cf", "segled_cg", "segled_dp"},
    {"rgb_led"},
    {"user_sw"},
    {"user_btn"},
    {"serial"},
    {"spisdcard", "sdcard"},
    {"cellularram", "ddram"},
    {"eth_clocks", "aud_pwm", "eth", "vga"}
  ]

  /** No name is used by two sections. */
  lemma SectionNamesDisjoint()
    ensures forall i, j | 0 <= i < j < |SectionNames| :: SectionNames[i] !! SectionNames[j]
  {
  }

  /** A name of section `k` is used by no earlier section. */
  lemma NotBefore(name: string, k: nat)
    requires k < |SectionNames| && name in SectionNames[k]
    ensures forall i | 0 <= i < k :: name !in SectionNames[i]
  {
    SectionNamesDisjoint();
  }
}

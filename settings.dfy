/**
 * The Nexys A7 platform settings that do not depend on the I/O tables: the FPGA device of
 * each board variant, the default clock, clock periods in whole nanoseconds, the JTAG
 * programmer and its flash-proxy bitstream, and the toolchain commands the platform adds.
 */
module NexysA7Settings {
  import opened Results

  // ---------------------------------------------------------------------------------------
  // Variants and devices

  /** The board variants and the FPGA part each carries. */
  const Devices: map<string, string> := map[
    "a7-50"  := "xc7a50t-1csg324i",
    "a7-100" := "xc7a100tcsg324-1"
  ]

  const DefaultVariant: string := "a7-100"
  const DefaultToolchain: string := "vivado"

  datatype PlatformError = UnknownVariant(variant: string)

  /** The part for a variant; a variant the board does not have is an error (the
   *  dictionary lookup raises on a missing key). */
  function DeviceFor(variant: string): (r: Result<string, PlatformError>)
    ensures r.Ok? <==> variant in Devices
    ensures r.Ok? ==> r.value == Devices[variant]
    ensures r.Err? ==> r.error == UnknownVariant(variant)
  {
    if variant in Devices then Ok(Devices[variant]) else Err(UnknownVariant(variant))
  }

  /** The board has exactly two variants, the default among them, and they carry
   *  different parts. */
  lemma VariantsAndDevices()
    ensures Devices.Keys == {"a7-50", "a7-100"} && DefaultVariant in Devices
    ensures DeviceFor("a7-50") == Ok("xc7a50t-1csg324i")
    ensures DeviceFor("a7-100") == Ok("xc7a100tcsg324-1")
    ensures forall v, w | v in Devices && w in Devices && v != w :: Devices[v] != Devices[w]
  {
  }

  // ---------------------------------------------------------------------------------------
  // Clock periods

  /** The period, in nanoseconds, of a clock of `freqHz` hertz (`1e9/freq`), for
   *  frequencies that divide one second into whole nanoseconds. */
  function PeriodNs(freqHz: nat): (ns: nat)
    requires 0 < freqHz && 1_000_000_000 % freqHz == 0
    ensures ns * freqHz == 1_000_000_000
  {
    1_000_000_000 / freqHz
  }

  const DefaultClkName: string := "clk100"
  const DefaultClkPeriodNs: nat := PeriodNs(100_000_000)

  /** A 100 MHz clock has a 10 ns period and a 50 MHz clock a 20 ns period; the default
   *  clock period is the first of these. */
  lemma Periods()
    ensures PeriodNs(100_000_000) == 10 && PeriodNs(50_000_000) == 20
    ensures DefaultClkPeriodNs == 10
  {
  }

  // ---------------------------------------------------------------------------------------
  // Programmer

  /** `sub` occurs in `s` starting at position `i`. */
  predicate OccursAt(s: string, sub: string, i: nat) {
    i + |sub| <= |s| && s[i..i + |sub|] == sub
  }

  /** `sub in s` on strings. */
  predicate Contains(s: string, sub: string) {
    exists i: nat | i <= |s| :: OccursAt(s, sub, i)
  }

  datatype Programmer = OpenOcd(config: string, flashProxy: string)

  const ProgrammerConfig: string := "openocd_xc7_ft2232.cfg"
  const Proxy100t: string := "bscan_spi_xc7a100t.bit"
  const Proxy50t: string := "bscan_spi_xc7a50t.bit"

  /** The OpenOCD programmer for a part: always the FT2232 configuration; the 100T flash
   *  proxy when the part name contains `xc7a100t`, and the 50T proxy for any other part. */
  function ProgrammerFor(device: string): (p: Programmer)
    ensures p.config == ProgrammerConfig
    ensures p.flashProxy == Proxy100t <==> Contains(device, "xc7a100t")
    ensures p.flashProxy == Proxy50t <==> !Contains(device, "xc7a100t")
  {
    OpenOcd(ProgrammerConfig, if Contains(device, "xc7a100t") then Proxy100t else Proxy50t)
  }

  lemma Contains100t()
    ensures Contains("xc7a100tcsg324-1", "xc7a100t")
  {
    assert OccursAt("xc7a100tcsg324-1", "xc7a100t", 0);
  }

  lemma Lacks100t()
    ensures !Contains("xc7a50t-1csg324i", "xc7a100t")
  {
    var s := "xc7a50t-1csg324i";
    forall i: nat ensures !OccursAt(s, "xc7a100t", i) {
      if i == 0 {
        assert s[4] != '1';
      } else if i + 8 <= |s| {
        assert s[i..i + 8][0] == s[i] != 'x';
      }
    }
  }

  /** Each variant gets the flash proxy of its own part family. */
  lemma ProgrammerPerVariant()
    ensures ProgrammerFor(Devices["a7-100"]) == OpenOcd(ProgrammerConfig, Proxy100t)
    ensures ProgrammerFor(Devices["a7-50"]) == OpenOcd(ProgrammerConfig, Proxy50t)
  {
    Contains100t();
    Lacks100t();
  }

  // ---------------------------------------------------------------------------------------
  // Toolchain commands

  /** A command template: literal text, and `{build_name}` fields the toolchain fills in
   *  with the name of the build. */
  datatype Piece = Text(text: string) | BuildNameField

  /** The placeholder as it is written in a command. */
  const BuildName: string := "{build_name}"

  /** The template with every field replaced by `name`. */
  function Render(t: seq<Piece>, name: string): string {
    if t == [] then []
    else (match t[0] case Text(s) => s case BuildNameField => name) + Render(t[1..], name)
  }

  /** The number of fields of a template. */
  function FieldCount(t: seq<Piece>): nat {
    if t == [] then 0 else (if t[0].BuildNameField? then 1 else 0) + FieldCount(t[1..])
  }

  /** The bitstream setting: SPI configuration on four data lines. */
  const BitstreamCommands: seq<string> := ["set_property BITSTREAM.CONFIG.SPI_BUSWIDTH 4 [current_design]"]

  const CfgmemHead: string := "write_cfgmem -force -format bin -interface spix4 -size 16 -loadbit \"up 0x0 "
  const CfgmemMiddle: string := ".bit\" -file "
  const CfgmemTail: string := ".bin"

  /** The command run after the bitstream: write a binary flash image of the bitstream. */
  const CfgmemTemplate: seq<Piece> :=
    [Text(CfgmemHead), BuildNameField, Text(CfgmemMiddle), BuildNameField, Text(CfgmemTail)]

  /** The command as the board writes it, placeholders and all. */
  const WriteCfgmem: string := Render(CfgmemTemplate, BuildName)

  /** The flash-image command names the build twice: it loads `<name>.bit` at address 0 and
   *  writes the image to `<name>.bin`, for whatever name the build gets. */
  lemma CfgmemNamesBuildTwice(name: string)
    ensures FieldCount(CfgmemTemplate) == 2
    ensures Render(CfgmemTemplate, name) == CfgmemHead + name + CfgmemMiddle + name + CfgmemTail
  {
    var t := CfgmemTemplate;
    assert t[1..][1..][1..][1..][1..] == [];
    assert Render(t[1..][1..][1..][1..], name) == CfgmemTail;
    assert Render(t[1..][1..][1..], name) == name + CfgmemTail;
    assert Render(t[1..][1..], name) == CfgmemMiddle + name + CfgmemTail;
    assert Render(t[1..], name) == name + CfgmemMiddle + name + CfgmemTail;
    assert FieldCount(t[1..][1..][1..][1..]) == 0;
    assert FieldCount(t[1..][1..]) == 1;
  }

  const AdditionalCommands: seq<string> := [WriteCfgmem]

  /** The internal reference voltage of I/O bank 34 (the DDR2 bank). */
  const VrefCommand: string := "set_property INTERNAL_VREF 0.900 [get_iobanks 34]"

  /** The board adds one command of each kind: the bitstream setting, the flash-image
   *  command with its `{build_name}` placeholder in both places, and the bank 34 VREF. */
  lemma BoardCommands()
    ensures |BitstreamCommands| == 1 && |AdditionalCommands| == 1
    ensures AdditionalCommands[0] == CfgmemHead + BuildName + CfgmemMiddle + BuildName + CfgmemTail
  {
    CfgmemNamesBuildTwice(BuildName);
  }
}

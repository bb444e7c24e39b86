# Nexys A7 board description, modelled in Dafny

This project models the LiteX board description of the Digilent Nexys A7
(`litex-boards/litex_boards/platforms/digilent_nexysA7.py`). It covers:

- the I/O resource table `_io`;
- the five PMOD connectors;
- the microSD PMOD template `sdcard_pmod_io` and its instance on header JD;
- the `Platform` class:
  - the variant to FPGA part map;
  - the toolchain commands set at construction;
  - the JTAG programmer choice;
  - the two clock period constraints added when finalizing.

LiteX's own helpers are used by the board file but are not part of this
model. They are written out here only as far as the board relies on them:

- A `Pins(...)` group is a list of strings. Each string splits on whitespace
  (the characters of Python's `str.isspace()`) into identifiers, and the splits
  are concatenated in order.
- An identifier `conn:i` refers to pin `i` (counting from 0) of connector
  `conn`. Any other identifier is a physical pin name.
- A request `name` or `name:sub` returns the first entry with that name in the
  table it is asked of, or that entry's first sub-signal called `sub`.

Modules, one per file:

| file | module | contents |
|---|---|---|
| `results.dfy` | `Results` | `Option`, `Result` |
| `pin_text.dfy` | `PinText` | whitespace split and join, decimal indices |
| `connectors.dfy` | `Connectors` | pin groups, connector registry, reference resolution |
| `resources.dfy` | `Resources` | resources, sub-signals, keys, request lookup |
| `board.dfy` | `NexysA7` | the `_io` table, written as its sections in order, and the names each section uses |
| `board_text.dfy` | `NexysA7Text` | how the board's pin strings split |
| `board_facts.dfy` | `NexysA7Facts` | unique keys and numbered runs of the table |
| `board_pins.dfy` | `NexysA7Pins` | what concrete requests resolve to |
| `pmod.dfy` | `NexysA7Pmod` | the PMOD headers and the microSD template |
| `pmod_facts.dfy` | `NexysA7PmodFacts` | header resolution, the template on JD |
| `settings.dfy` | `NexysA7Settings` | devices, periods, programmer, commands |
| `platform.dfy` | `NexysA7Platform` | the `Platform` class |

## Model

| member | source | states |
|---|---|---|
| PinText.Split | litex-boards/litex_boards/platforms/digilent_nexysA7.py:40 | every identifier of a split is a non-empty run without whitespace |
| PinText.SplitJoin | litex-boards/litex_boards/platforms/digilent_nexysA7.py:123-126 | splitting words joined by single spaces gives back the same words |
| PinText.SplitSeparated | litex-boards/litex_boards/platforms/digilent_nexysA7.py:123-126 | a whitespace character separates: splitting `a c b` gives the split of `a` followed by the split of `b` |
| PinText.SplitTrailingSpace | litex-boards/litex_boards/platforms/digilent_nexysA7.py:40 | a trailing blank adds no identifier |
| PinText.SplitKeepsText | litex-boards/litex_boards/platforms/digilent_nexysA7.py:40 | the split removes the whitespace and nothing else |
| PinText.NormalizeIdempotent | litex-boards/litex_boards/platforms/digilent_nexysA7.py:40 | split-then-join is idempotent |
| PinText.ParseDecimalText | litex-boards/litex_boards/platforms/digilent_nexysA7.py:227-238 | the decimal text of an index reads back as that index |
| PinText.ParseIndex | litex-boards/litex_boards/platforms/digilent_nexysA7.py:227-238 | a position text reads as an index exactly when it is a non-empty run of decimal digits |
| Connectors.IdentifiersAreWords | litex-boards/litex_boards/platforms/digilent_nexysA7.py:123-126 | every identifier of a multi-string pin group is a word |
| Connectors.Identifiers | litex-boards/litex_boards/platforms/digilent_nexysA7.py:123-130 | the identifiers of a `Pins(...)` group: each of its strings split on whitespace, the splits concatenated in order |
| Connectors.IdentifiersCons | litex-boards/litex_boards/platforms/digilent_nexysA7.py:123-130 | the identifiers of `Pins(s, rest...)` are the split of `s` followed by the identifiers of the rest |
| Connectors.TwoStrings | litex-boards/litex_boards/platforms/digilent_nexysA7.py:128-130 | a group of two strings names the pins of the first string, then those of the second |
| Connectors.ThreeStrings | litex-boards/litex_boards/platforms/digilent_nexysA7.py:123-126 | a group of three strings names the pins of each string, in the order written |
| Connectors.BuildTableFacts | litex-boards/litex_boards/platforms/digilent_nexysA7.py:212-218 | every listed connector is registered, and each entry is the split of one of its listings |
| Connectors.BuildTable | litex-boards/litex_boards/platforms/digilent_nexysA7.py:212-218 | the connector registry: each header name mapped to the split of its pin string |
| Connectors.BuildTableDistinct | litex-boards/litex_boards/platforms/digilent_nexysA7.py:212-218 | with distinct names, the registry keys are exactly the listed names and each entry is the split of its own pin string |
| Connectors.Classify | litex-boards/litex_boards/platforms/digilent_nexysA7.py:227 | an identifier is a pin name exactly when it has no colon; a reference splits at its only colon |
| Connectors.ClassifyRefText | litex-boards/litex_boards/platforms/digilent_nexysA7.py:227 | the text `conn:i` reads back as a reference to position `i` of `conn` |
| Connectors.RefText | litex-boards/litex_boards/platforms/digilent_nexysA7.py:227-238 | the reference text `f"{pmod}:i"` for position `i` of a connector |
| Connectors.ResolveIdentifier | litex-boards/litex_boards/platforms/digilent_nexysA7.py:227-238 | a pin name resolves to itself; a reference that resolves names a registered connector, an index in range, and that pin |
| Connectors.ResolveReference | litex-boards/litex_boards/platforms/digilent_nexysA7.py:212-218 | `conn:i` gives pin `i` when `i` is below the pin count, and otherwise an unknown-connector or out-of-range error |
| Connectors.ResolveAll | litex-boards/litex_boards/platforms/digilent_nexysA7.py:234 | a pin list resolves exactly when each identifier does, element by element and in order; otherwise the error is that of the first identifier that fails |
| Connectors.ResolveRefs | litex-boards/litex_boards/platforms/digilent_nexysA7.py:234 | in-range references into one connector resolve to that connector's pins at those positions |
| Connectors.ResolvePhysicalPins | litex-boards/litex_boards/platforms/digilent_nexysA7.py:16 | identifiers without a colon resolve to themselves in any registry |
| Resources.FindResource | litex-boards/litex_boards/platforms/digilent_nexysA7.py:14-208 | the result is none exactly when no entry matches; otherwise it is a matching entry |
| Resources.FindSubsignal | litex-boards/litex_boards/platforms/digilent_nexysA7.py:122-143 | the result is none exactly when no sub-signal has the name; otherwise it is one with that name |
| Resources.LookupRequest | litex-boards/litex_boards/platforms/digilent_nexysA7.py:271 | a plain name returns the matching entry; a part `name:sub` returns a sub-signal called `sub` |
| Resources.IndicesOfMembers | litex-boards/litex_boards/platforms/digilent_nexysA7.py:20-35 | the listed indices of a name are exactly the indices its entries carry |
| Resources.UniqueAppend | litex-boards/litex_boards/platforms/digilent_nexysA7.py:14-208 | two tables with unique keys and disjoint names concatenate to a table with unique keys |
| Resources.FlattenUnique | litex-boards/litex_boards/platforms/digilent_nexysA7.py:14-208 | sections with unique keys and pairwise disjoint names form a table with unique keys |
| Resources.FlattenFind | litex-boards/litex_boards/platforms/digilent_nexysA7.py:14-208 | if no earlier section uses a name, the whole table answers a request for it as its own section does |
| Resources.FlattenIndices | litex-boards/litex_boards/platforms/digilent_nexysA7.py:14-208 | a name used in only one section has that section's indices in the whole table |
| Resources.IndicesOfRun | litex-boards/litex_boards/platforms/digilent_nexysA7.py:70-85 | a numbered run from `base` lists indices `base, base+1, ...` |
| Resources.FindUnique | litex-boards/litex_boards/platforms/digilent_nexysA7.py:38-45 | with unique keys, asking for an entry's own name and index finds that entry |
| Resources.FindResourceAppend | litex-boards/litex_boards/platforms/digilent_nexysA7.py:14-208 | a lookup in `a + b` answers from `a` when `a` matches, and from `b` otherwise |
| NexysA7.SectionNamesDisjoint | litex-boards/litex_boards/platforms/digilent_nexysA7.py:14-208 | no two sections of the table share a name |
| NexysA7Text.TrailingBlankPin | litex-boards/litex_boards/platforms/digilent_nexysA7.py:40 | a pin string that is one word followed by a blank names that one pin |
| NexysA7Text.CellularRamAddressPins | litex-boards/litex_boards/platforms/digilent_nexysA7.py:123-126 | the three address strings split into the 23 listed pins, in order |
| NexysA7Text.CellularRamDataPins | litex-boards/litex_boards/platforms/digilent_nexysA7.py:128-130 | the two data strings split into the 16 listed pins, in order |
| NexysA7Text.DdrAddressPins | litex-boards/litex_boards/platforms/digilent_nexysA7.py:146-148 | the two DDR2 address strings split into the 13 listed pins, in order |
| NexysA7Text.DdrDataPins | litex-boards/litex_boards/platforms/digilent_nexysA7.py:156-158 | the two DDR2 data strings split into the 16 listed pins, in order |
| NexysA7Text.PmodD | litex-boards/litex_boards/platforms/digilent_nexysA7.py:216 | header JD's pin string splits into its eight pins, in order |
| NexysA7Facts.SectionsNamed | litex-boards/litex_boards/platforms/digilent_nexysA7.py:14-208 | every section has unique keys and uses only its own names |
| NexysA7Facts.IoKeysUnique | litex-boards/litex_boards/platforms/digilent_nexysA7.py:14-208 | no two entries of the table share a `(name, index)` pair |
| NexysA7Facts.RunsContiguous | litex-boards/litex_boards/platforms/digilent_nexysA7.py:20-92 | each repeated name is numbered 0 to n-1 with no gaps, in order: user_led 16, segled_an 8, rgb_led 2, user_sw 16, user_btn 5 |
| NexysA7Pins.Clk100Pin | litex-boards/litex_boards/platforms/digilent_nexysA7.py:16 | the request `clk100` resolves to the single pin E3 |
| NexysA7Pins.RefClkPin | litex-boards/litex_boards/platforms/digilent_nexysA7.py:175-176 | the request `eth_clocks:ref_clk` resolves to the single pin D5 |
| NexysA7Pins.CellularRamAddress | litex-boards/litex_boards/platforms/digilent_nexysA7.py:122-126 | `cellularram:addr` resolves to its 23 pins, in order |
| NexysA7Pins.CellularRamData | litex-boards/litex_boards/platforms/digilent_nexysA7.py:122-130 | `cellularram:data` resolves to its 16 pins, in order |
| NexysA7Pins.DdrAddress | litex-boards/litex_boards/platforms/digilent_nexysA7.py:145-148 | `ddram:a` resolves to its 13 pins, in order |
| NexysA7Pins.DdrData | litex-boards/litex_boards/platforms/digilent_nexysA7.py:145-158 | `ddram:dq` resolves to its 16 pins, in order |
| NexysA7Pins.AnodeT9 | litex-boards/litex_boards/platforms/digilent_nexysA7.py:40 | digit anode 2 (`"T9 "`) resolves to the one pin T9 |
| NexysA7Pins.AnodeK2 | litex-boards/litex_boards/platforms/digilent_nexysA7.py:44 | digit anode 6 (`"K2 "`) resolves to the one pin K2 |
| NexysA7Pins.SwitchT8 | litex-boards/litex_boards/platforms/digilent_nexysA7.py:78 | switch 8 (`"T8 "`) resolves to the one pin T8 |
| NexysA7Pins.SwitchU8 | litex-boards/litex_boards/platforms/digilent_nexysA7.py:79 | switch 9 (`"U8 "`) resolves to the one pin U8 |
| NexysA7Pins.SwitchH6 | litex-boards/litex_boards/platforms/digilent_nexysA7.py:82 | switch 12 (`"H6 "`) resolves to the one pin H6 |
| NexysA7Pmod.ConnectorNamesDistinct | litex-boards/litex_boards/platforms/digilent_nexysA7.py:212-218 | the five header names are distinct |
| NexysA7Pmod.RegistryKeys | litex-boards/litex_boards/platforms/digilent_nexysA7.py:212-218 | the registry holds exactly pmoda, pmodb, pmodc, pmodd and pmodxdac |
| NexysA7Pmod.PmodAPins | litex-boards/litex_boards/platforms/digilent_nexysA7.py:213 | header pmoda is registered with its eight pins, in order |
| NexysA7Pmod.PmodBPins | litex-boards/litex_boards/platforms/digilent_nexysA7.py:214 | header pmodb is registered with its eight pins, in order |
| NexysA7Pmod.PmodCPins | litex-boards/litex_boards/platforms/digilent_nexysA7.py:215 | header pmodc is registered with its eight pins, in order |
| NexysA7Pmod.PmodDPins | litex-boards/litex_boards/platforms/digilent_nexysA7.py:216 | header pmodd is registered with its eight pins, in order |
| NexysA7Pmod.PmodXdacPins | litex-boards/litex_boards/platforms/digilent_nexysA7.py:217 | header pmodxdac is registered with its eight pins, in order |
| NexysA7Pmod.SdcardPmodIo | litex-boards/litex_boards/platforms/digilent_nexysA7.py:222-242 | the template gives exactly two compound resources, `("spisdcard", 0)` and `("sdcard", 0)`, with sub-signals `clk`, `mosi`, `cs_n`, `miso` and `data`, `cmd`, `clk`, `cd` |
| NexysA7Pmod.PositionsBelowSeven | litex-boards/litex_boards/platforms/digilent_nexysA7.py:222-242 | the template refers only to connector positions 0 to 6 |
| NexysA7Pmod.SdcardRefs | litex-boards/litex_boards/platforms/digilent_nexysA7.py:222-242 | each sub-signal of the template names, in order, the references `p:i` at its listed positions |
| NexysA7Pmod.SdcardResolves | litex-boards/litex_boards/platforms/digilent_nexysA7.py:222-242 | on any connector with at least seven pins, each sub-signal resolves to the pins at its listed positions |
| NexysA7PmodFacts.EightPins | litex-boards/litex_boards/platforms/digilent_nexysA7.py:212-218 | every registered header has exactly eight pins |
| NexysA7PmodFacts.ResolveHeaderPin | litex-boards/litex_boards/platforms/digilent_nexysA7.py:212-218 | on a header, `c:i` gives pin `i` for `i < 8`, and `i >= 8` (8 included) is out of range |
| NexysA7PmodFacts.ResolveUnknownHeader | litex-boards/litex_boards/platforms/digilent_nexysA7.py:212-218 | a reference to a name that is not a header is an unknown-connector error |
| NexysA7PmodFacts.PmodD3 | litex-boards/litex_boards/platforms/digilent_nexysA7.py:216 | `pmodd:3` resolves to G3 |
| NexysA7PmodFacts.SdcardJdPins | litex-boards/litex_boards/platforms/digilent_nexysA7.py:243 | on JD, spisdcard has clk G3, mosi H1, cs_n H4 and miso G1; sdcard has data `[G1, H2, G4, H4]`, cmd H1, clk G3 and cd G2 |
| NexysA7Settings.DeviceFor | litex-boards/litex_boards/platforms/digilent_nexysA7.py:251-255 | a variant gives a part exactly when the board has that variant; any other key is an unknown-variant error |
| NexysA7Settings.VariantsAndDevices | litex-boards/litex_boards/platforms/digilent_nexysA7.py:251-255 | the two variants are a7-50 (xc7a50t-1csg324i) and a7-100 (xc7a100tcsg324-1); the default a7-100 is one of them; different variants have different parts |
| NexysA7Settings.PeriodNs | litex-boards/litex_boards/platforms/digilent_nexysA7.py:249 | the period times the frequency is one second |
| NexysA7Settings.Periods | litex-boards/litex_boards/platforms/digilent_nexysA7.py:249 | 100 MHz is 10 ns, 50 MHz is 20 ns, and the default clock period is 10 ns |
| NexysA7Settings.ProgrammerFor | litex-boards/litex_boards/platforms/digilent_nexysA7.py:264-266 | the adapter file is always the FT2232 one; the 100T proxy is chosen exactly when the part contains `xc7a100t`, and the 50T proxy otherwise, with no error |
| NexysA7Settings.ProgrammerPerVariant | litex-boards/litex_boards/platforms/digilent_nexysA7.py:251-266 | the a7-100 gets the 100T proxy and the a7-50 the 50T proxy |
| NexysA7Settings.CfgmemNamesBuildTwice | litex-boards/litex_boards/platforms/digilent_nexysA7.py:259-261 | the flash-image command holds two `{build_name}` fields: it reads `<name>.bit` and writes `<name>.bin` for the same name |
| NexysA7Settings.BoardCommands | litex-boards/litex_boards/platforms/digilent_nexysA7.py:257-262 | the board sets one bitstream command and one flash-image command, and the latter holds the `{build_name}` placeholder for both the `.bit` input and the `.bin` output |
| NexysA7Platform.BoardClocks | litex-boards/litex_boards/platforms/digilent_nexysA7.py:268-271 | on the board's table, finalizing constrains E3 (`clk100`) to 10 ns and then D5 (`eth_clocks:ref_clk`) to 20 ns |
| NexysA7Platform.ClockConstraints | litex-boards/litex_boards/platforms/digilent_nexysA7.py:268-271 | the constraints finalizing adds, in order: `clk100` at 10 ns and `eth_clocks:ref_clk` at 20 ns, each on what the table answers for that request |
| NexysA7Platform.Platform.Init | litex-boards/litex_boards/platforms/digilent_nexysA7.py:256-262 | a new platform holds the part, the toolchain, the table, the headers, one bitstream command, one additional command, one platform command (VREF 0.900 on bank 34) and no constraint |
| NexysA7Platform.Platform.Create | litex-boards/litex_boards/platforms/digilent_nexysA7.py:251-262 | creation succeeds exactly for a known variant, with that variant's part and the same commands for both variants; an unknown variant is an error |
| NexysA7Platform.Platform.CreateProgrammer | litex-boards/litex_boards/platforms/digilent_nexysA7.py:264-266 | the programmer is the one chosen for the platform's part; each variant gets its own family's proxy |
| NexysA7Platform.Platform.DoFinalize | litex-boards/litex_boards/platforms/digilent_nexysA7.py:268-271 | appends exactly two constraints, first `clk100` at 10 ns and then `eth_clocks:ref_clk` at 20 ns, each on what the table answers; nothing else changes |

## Left out

- LiteX's base classes and helpers are not part of this model. This covers
  `XilinxPlatform`, `Pins`, `Subsignal`, `IOStandard`, `Misc`, `OpenOCD`,
  `lookup_request` and `add_period_constraint`. Only the pin-splitting,
  connector-reference and first-match conventions above are written out.
- Connector references in the `_io` table are not resolved when the table is
  built. The model resolves them on request (`ResolveAll`), and `Io` itself
  refers to no connector.
- `lookup_request(..., loose=True)` is modelled as returning nothing on a miss.
  `DoFinalize` records that answer as it is. What LiteX does with a missing
  clock when it adds a constraint is not modelled.
- `XilinxPlatform.do_finalize`, called first by `do_finalize`, is not
  modelled. Neither is the toolchain object: its name is stored but not
  checked, and the commands are stored as platform fields.
- Periods are whole nanoseconds. `1e9/100e6` and `1e9/50e6` are exact, so no
  floating-point arithmetic is modelled.
- Command strings are stored verbatim, `{build_name}` placeholders included.
  Their Vivado/Tcl meaning is not modelled. Filling in the placeholder
  (`Render`) is stated only for the flash-image template.
- NexysA7Settings.CfgmemNamesBuildTwice counts the fields of the template.
  It does not prove that the literal text around them holds no further braces.
- `create_programmer` never fails. Any part whose name lacks `xc7a100t` gets
  the 50T flash proxy (`ProgrammerFor`).
- The table is a fixed literal, so nothing is ever added to it at run time.
  `IoKeysUnique` proves that its `(name, index)` pairs are unique.
- Period constraints are an append-only list (`DoFinalize`). LiteX's
  one-period-per-clock record, its check for a conflicting period and its
  already-finalized guard are not modelled.
- LiteX's `lookup_request` searches only the resources the design has already
  requested. In `DoFinalize` and `ClockConstraints`, `io` stands for those
  requested resources. `BoardClocks` takes the whole table, so it assumes both
  clocks were requested. A design that never requests `eth_clocks` gets no
  `ref_clk` constraint in LiteX.
- LiteX's connector manager rejects a repeated connector name. `BuildTable`
  does not model that error; it is used only on the board's header list, whose
  names are distinct (`ConnectorNamesDistinct`).
- PinText.ParseIndex reads ASCII decimal digits only. Python's `int()` also accepts
  surrounding whitespace, a sign, underscores and non-ASCII digits. Such
  positions never occur in this board's references.
- Attributes (I/O standards, `PULLUP`, `SLEW`, `IN_TERM`) are stored but
  given no electrical meaning.
- The build, bitstream generation and programming steps are external tool
  runs and are not modelled.
- Concrete pin answers are proved for the clocks, the memory buses and the
  pin strings with trailing blanks. Other entries are constants only.

/**
 * The Nexys A7 platform object: created for a board variant, it carries the part, the
 * toolchain name, the resource table and the connectors, and the toolchain commands the
 * board adds; it builds the JTAG programmer for its part, and finalizing it adds the period
 * constraints of the two board clocks.
 */
module NexysA7Platform {
  import opened Results
  import opened Resources
  import opened NexysA7
  import opened NexysA7Pmod
  import opened NexysA7Pins
  import opened NexysA7Settings

  /** A period constraint: the request it was made for, the pins that request found (none
   *  when nothing in the table answers it), and the period in nanoseconds. */
  datatype PeriodConstraint = PeriodConstraint(request: string, pins: Option<seq<string>>, periodNs: nat)

  /** The request of the Ethernet reference clock. */
  const RefClkRequestPath: string := "eth_clocks:ref_clk"

  /** The two constraints finalizing adds on the board's own table: 10 ns on the E3 system
   *  clock and 20 ns on the D5 Ethernet reference clock. */
  const BoardClockConstraints: seq<PeriodConstraint> := [
    PeriodConstraint("clk100", Some(["E3"]), 10),
    PeriodConstraint("eth_clocks:ref_clk", Some(["D5"]), 20)
  ]

  /** The constraints finalizing adds, in order: the system clock at 10 ns and the Ethernet
   *  reference clock at 20 ns, each on what table `io` answers for its request. */
  function ClockConstraints(io: seq<Resource>): (cs: seq<PeriodConstraint>)
    ensures |cs| == 2
    ensures cs[0].request == DefaultClkName && cs[0].periodNs == 10
    ensures cs[1].request == RefClkRequestPath && cs[1].periodNs == 20
    ensures forall k | 0 <= k < |cs| :: cs[k].pins == RequestIdentifiers(io, cs[k].request, None)
  {
    Periods();
    [PeriodConstraint(DefaultClkName, RequestIdentifiers(io, DefaultClkName, None), PeriodNs(100_000_000)),
     PeriodConstraint(RefClkRequestPath, RequestIdentifiers(io, RefClkRequestPath, None), PeriodNs(50_000_000))]
  }

  /** On the board's own table both requests are answered: the system clock by E3 with a
   *  10 ns period, the Ethernet reference clock by D5 with a 20 ns period. */
  lemma BoardClocks()
    ensures ClockConstraints(Io) == BoardClockConstraints
  {
    Clk100Pin();
    RefClkPin();
    Periods();
  }

  class Platform {
    var device: string
    var toolchain: string
    var io: seq<Resource>
    var connectors: seq<(string, string)>
    var bitstreamCommands: seq<string>
    var additionalCommands: seq<string>
    var platformCommands: seq<string>
    var periodConstraints: seq<PeriodConstraint>

    /** The state a newly created platform is in: the board's tables, the part of one of
     *  the variants, its commands, and no period constraint yet. */
    predicate Configured()
      reads this
    {
      && device in Devices.Values
      && io == Io && connectors == ConnectorList
      && bitstreamCommands == BitstreamCommands && additionalCommands == AdditionalCommands
      && platformCommands == [VrefCommand]
    }

    /** A platform for part `device`, with the board's tables and commands. */
    constructor Init(device: string, toolchain: string)
      ensures this.device == device && this.toolchain == toolchain
      ensures io == Io && connectors == ConnectorList
      ensures bitstreamCommands == BitstreamCommands && additionalCommands == AdditionalCommands
      ensures platformCommands == [VrefCommand] && periodConstraints == []
    {
      this.device := device;
      this.toolchain := toolchain;
      io := Io;
      connectors := ConnectorList;
      bitstreamCommands := BitstreamCommands;
      additionalCommands := AdditionalCommands;
      platformCommands := [];
      periodConstraints := [];
      new;
      platformCommands := platformCommands + [VrefCommand];
    }

    /** The platform of a board variant (by default the A7-100 with Vivado). A variant the
     *  board does not have is an error and creates nothing. */
    static method Create(variant: string := DefaultVariant, toolchain: string := DefaultToolchain)
      returns (r: Result<Platform, PlatformError>)
      ensures r.Ok? <==> variant in Devices
      ensures r.Err? ==> r.error == UnknownVariant(variant)
      ensures r.Ok? ==> fresh(r.value) && r.value.Configured()
                        && r.value.device == Devices[variant] && r.value.toolchain == toolchain
                        && r.value.periodConstraints == []
    {
      var device := DeviceFor(variant);
      if device.Err? {
        r := Err(device.error);
      } else {
        var p := new Platform.Init(device.value, toolchain);
        r := Ok(p);
      }
    }

    /** The OpenOCD programmer of the platform's part: the A7-100 gets the 100T flash proxy
     *  and the A7-50 the 50T one. */
    method CreateProgrammer() returns (p: Programmer)
      ensures p.config == ProgrammerConfig
      ensures p.flashProxy == Proxy100t <==> Contains(device, "xc7a100t")
      ensures device == Devices["a7-100"] ==> p == OpenOcd(ProgrammerConfig, Proxy100t)
      ensures device == Devices["a7-50"] ==> p == OpenOcd(ProgrammerConfig, Proxy50t)
      ensures Configured() ==> p.flashProxy in {Proxy100t, Proxy50t}
    {
      ProgrammerPerVariant();
      p := ProgrammerFor(device);
    }

    /** Adds a period constraint on the system clock (100 MHz, 10 ns) and one on the
     *  Ethernet reference clock (50 MHz, 20 ns), each on whatever the table answers for
     *  its request; nothing else changes. On the board's own table these are the pins E3
     *  and D5 (`BoardClocks`). */
    method DoFinalize()
      modifies this
      ensures device == old(device) && toolchain == old(toolchain)
      ensures io == old(io) && connectors == old(connectors)
      ensures bitstreamCommands == old(bitstreamCommands)
      ensures additionalCommands == old(additionalCommands)
      ensures platformCommands == old(platformCommands)
      ensures periodConstraints == old(periodConstraints) + ClockConstraints(io)
    {
      var clk := RequestIdentifiers(io, DefaultClkName, None);
      periodConstraints := periodConstraints + [PeriodConstraint(DefaultClkName, clk, PeriodNs(100_000_000))];
      var refClk := RequestIdentifiers(io, RefClkRequestPath, None);
      periodConstraints := periodConstraints + [PeriodConstraint(RefClkRequestPath, refClk, PeriodNs(50_000_000))];
    }
  }
}

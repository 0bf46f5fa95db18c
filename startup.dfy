/** The server's start-up: scanning the command line, selecting the capture device by
    its index, negotiating the display mode and pixel format, and probing for one frame.
    Every answer of the capture hardware and of the platform is an input: the records
    below carry the HRESULTs and attributes the start-up reads. */
module Startup {
  import opened Wrappers
  import CaptureStills
  import ImageWriter

  // ---------------------------------------------------------------------------
  // atoi

  /** The characters the C library counts as white space. */
  predicate IsSpace(c: char) {
    c == ' ' || c == '\t' || c == '\n' || c == '\r' || c == '\U{0B}' || c == '\U{0C}'
  }

  predicate IsDigit(c: char) { '0' <= c <= '9' }

  predicate AllDigits(s: string) { forall i :: 0 <= i < |s| ==> IsDigit(s[i]) }

  function SkipSpaces(s: string): string {
    if |s| > 0 && IsSpace(s[0]) then SkipSpaces(s[1..]) else s
  }

  /** Skipping white space drops a prefix of white space and stops at the first other
      character. */
  lemma {:induction false} SkipSpacesSuffix(s: string)
    ensures var r := SkipSpaces(s);
            |r| <= |s| && r == s[|s| - |r|..]
            && (forall i :: 0 <= i < |s| - |r| ==> IsSpace(s[i]))
            && (|r| > 0 ==> !IsSpace(r[0]))
    decreases |s|
  {
    if |s| > 0 && IsSpace(s[0]) {
      SkipSpacesSuffix(s[1..]);
    }
  }

  /** The longest prefix of `s` made of decimal digits. */
  function LeadingDigits(s: string): (r: string)
    ensures AllDigits(r)
  {
    if |s| > 0 && IsDigit(s[0]) then [s[0]] + LeadingDigits(s[1..]) else ""
  }

  /** The digits read are a prefix of the input, and the character after them, if any,
      is not a digit. */
  lemma {:induction false} LeadingDigitsPrefix(s: string)
    ensures var r := LeadingDigits(s);
            |r| <= |s| && r == s[..|r|] && (|r| < |s| ==> !IsDigit(s[|r|]))
    decreases |s|
  {
    if |s| > 0 && IsDigit(s[0]) {
      LeadingDigitsPrefix(s[1..]);
    }
  }

  /** The value of a string of decimal digits, most significant first. */
  function DigitsValue(ds: string): nat
    requires AllDigits(ds)
  {
    if |ds| == 0 then 0 else DigitsValue(ds[..|ds| - 1]) * 10 + (ds[|ds| - 1] as int - '0' as int)
  }

  /** atoi: skip white space, read an optional sign and then as many digits as follow;
      no digits read as 0. The C function's behaviour on overflow is undefined; the
      model's integers are unbounded. */
  function Atoi(s: string): int {
    var t := SkipSpaces(s);
    if |t| > 0 && t[0] == '-' then -(DigitsValue(LeadingDigits(t[1..])) as int)
    else if |t| > 0 && t[0] == '+' then DigitsValue(LeadingDigits(t[1..]))
    else DigitsValue(LeadingDigits(t))
  }

  /** The decimal rendering of a natural number, without leading zeros. */
  function Decimal(n: nat): (r: string)
    ensures |r| > 0 && AllDigits(r)
  {
    var d := ['0' + (n % 10) as char];
    if n < 10 then d else Decimal(n / 10) + d
  }

  /** The decimal rendering of an integer, with a minus sign when it is negative. */
  function IntString(n: int): string {
    if n < 0 then "-" + Decimal(-n) else Decimal(n)
  }

  lemma {:induction false} DecimalValue(n: nat)
    ensures DigitsValue(Decimal(n)) == n
  {
    if n >= 10 {
      DecimalValue(n / 10);
      var r := Decimal(n);
      assert r[..|r| - 1] == Decimal(n / 10);
    }
  }

  lemma LeadingDigitsOfDigits(ds: string)
    requires AllDigits(ds)
    ensures LeadingDigits(ds) == ds
  {
  }

  /** atoi reads back the decimal rendering of every integer. */
  lemma AtoiIntString(n: int)
    ensures Atoi(IntString(n)) == n
  {
    var m: nat := if n < 0 then -n else n;
    DecimalValue(m);
    AtoiDigits(Decimal(m));
  }

  /** atoi reads a string of digits, with or without a leading minus sign, as its value. */
  lemma AtoiDigits(ds: string)
    requires |ds| > 0 && AllDigits(ds)
    ensures Atoi(ds) == DigitsValue(ds)
    ensures Atoi("-" + ds) == -(DigitsValue(ds) as int)
  {
    LeadingDigitsOfDigits(ds);
    SkipNoSpaces(ds);
    SkipNoSpaces("-" + ds);
    assert ("-" + ds)[1..] == ds;
  }

  /** White space skipping stops at once before a digit or a minus sign. */
  lemma SkipNoSpaces(s: string)
    requires |s| > 0 && (IsDigit(s[0]) || s[0] == '-')
    ensures SkipSpaces(s) == s
  {
  }

  // ---------------------------------------------------------------------------
  // The command line

  /** The configuration flags and their defaults. */
  datatype Flags = Flags(deckLinkIndex: int, displayModeIndex: int, pixelFormatIndex: int, portNo: int)

  const DefaultFlags := Flags(-1, -1, 0, -1)

  /** The four options that take a value. */
  predicate IsOption(arg: string) {
    arg == "-d" || arg == "-m" || arg == "-f" || arg == "-p"
  }

  function SetOption(f: Flags, option: string, value: int): (g: Flags)
    requires IsOption(option)
    ensures option == "-d" ==> g == f.(deckLinkIndex := value)
    ensures option == "-m" ==> g == f.(displayModeIndex := value)
    ensures option == "-f" ==> g == f.(pixelFormatIndex := value)
    ensures option == "-p" ==> g == f.(portNo := value)
  {
    if option == "-d" then f.(deckLinkIndex := value)
    else if option == "-m" then f.(displayModeIndex := value)
    else if option == "-f" then f.(pixelFormatIndex := value)
    else f.(portNo := value)
  }

  /** Scanning the arguments from position `i`: an option consumes the next argument as
      its value, anything else is skipped. An option in last position would read the
      null terminator of argv, which is undefined behaviour: None. */
  function ScanFrom(argv: seq<string>, i: nat, f: Flags): Option<Flags>
    decreases |argv| - i
  {
    if i >= |argv| then Some(f)
    else if IsOption(argv[i]) then
      if i + 1 >= |argv| then None else ScanFrom(argv, i + 2, SetOption(f, argv[i], Atoi(argv[i + 1])))
    else ScanFrom(argv, i + 1, f)
  }

  /** The flags of a command line; argv[0] is the program name. */
  function ScanArgs(argv: seq<string>): Option<Flags> {
    ScanFrom(argv, 1, DefaultFlags)
  }

  /** The scanning loop of the start-up. */
  method ScanArguments(argv: seq<string>) returns (flags: Option<Flags>)
    ensures flags == ScanArgs(argv)
  {
    var f := DefaultFlags;
    var i := 1;
    while i < |argv|
      invariant 1 <= i
      invariant ScanFrom(argv, i, f) == ScanArgs(argv)
      decreases |argv| - i
    {
      if IsOption(argv[i]) {
        if i + 1 >= |argv| {
          return None;
        }
        f := SetOption(f, argv[i], Atoi(argv[i + 1]));
        i := i + 2;
      } else {
        i := i + 1;
      }
    }
    flags := Some(f);
  }

  /** A scan that completes over `argv` continues over anything appended to it from
      where it stopped. */
  lemma {:induction false} ScanFromAppend(argv: seq<string>, tail: seq<string>, i: nat, f: Flags)
    requires i <= |argv| && ScanFrom(argv, i, f).Some?
    ensures ScanFrom(argv + tail, i, f) == ScanFrom(argv + tail, |argv|, ScanFrom(argv, i, f).value)
    decreases |argv| - i
  {
    var a := argv + tail;
    if i < |argv| {
      assert a[i] == argv[i];
      if IsOption(argv[i]) {
        assert a[i + 1] == argv[i + 1];
        ScanFromAppend(argv, tail, i + 2, SetOption(f, argv[i], Atoi(argv[i + 1])));
      } else {
        ScanFromAppend(argv, tail, i + 1, f);
      }
    }
  }

  /** An option given again later on the command line overrides the earlier value. */
  lemma LaterOptionWins(argv: seq<string>, option: string, value: string)
    requires |argv| >= 1 && IsOption(option) && ScanArgs(argv).Some?
    ensures ScanArgs(argv + [option, value]) == Some(SetOption(ScanArgs(argv).value, option, Atoi(value)))
  {
    ScanFromAppend(argv, [option, value], 1, DefaultFlags);
    var a := argv + [option, value];
    assert a[|argv|] == option && a[|argv| + 1] == value;
  }

  /** An option without a value after it makes the scan undefined. */
  lemma OptionWithoutValue(argv: seq<string>, option: string)
    requires |argv| >= 1 && IsOption(option) && ScanArgs(argv).Some?
    ensures ScanArgs(argv + [option]).None?
  {
    ScanFromAppend(argv, [option], 1, DefaultFlags);
    assert (argv + [option])[|argv|] == option;
  }

  /** A command line that spells out all four options yields exactly the values atoi
      reads from them. */
  lemma ScanAllOptions(program: string, device: string, mode: string, pixelFormat: string, port: string)
    ensures ScanArgs([program, "-d", device, "-m", mode, "-f", pixelFormat, "-p", port])
            == Some(Flags(Atoi(device), Atoi(mode), Atoi(pixelFormat), Atoi(port)))
  {
    var a0 := [program];
    assert ScanArgs(a0) == Some(DefaultFlags);
    LaterOptionWins(a0, "-d", device);
    var a1 := a0 + ["-d", device];
    LaterOptionWins(a1, "-m", mode);
    var a2 := a1 + ["-m", mode];
    LaterOptionWins(a2, "-f", pixelFormat);
    var a3 := a2 + ["-f", pixelFormat];
    LaterOptionWins(a3, "-p", port);
    assert a3 + ["-p", port] == [program, "-d", device, "-m", mode, "-f", pixelFormat, "-p", port];
  }

  /** In particular, options written as decimal numbers give back those numbers. */
  lemma ScanDecimalOptions(program: string, device: int, mode: int, pixelFormat: int, port: int)
    ensures ScanArgs([program, "-d", IntString(device), "-m", IntString(mode),
                      "-f", IntString(pixelFormat), "-p", IntString(port)])
            == Some(Flags(device, mode, pixelFormat, port))
  {
    ScanAllOptions(program, IntString(device), IntString(mode), IntString(pixelFormat), IntString(port));
    AtoiIntString(device);
    AtoiIntString(mode);
    AtoiIntString(pixelFormat);
    AtoiIntString(port);
  }

  // ---------------------------------------------------------------------------
  // The capture hardware

  /** A display mode of the selected device: whether its name could be read, the name,
      and its mode code. */
  datatype DisplayMode = DisplayMode(nameOk: bool, name: string, mode: int)

  /** A capture device as the iterator yields it, with the answers it gives: its display
      name, its attributes interface, its video I/O support bits and the result of
      reading them, whether it detects input formats, the result of initialising its
      input, its display modes, and its answer (HRESULT, supported) on whether a mode
      is supported with a pixel format. */
  datatype Device = Device(nameOk: bool, name: string, queryOk: bool, ioSupportHr: int, ioSupport: int,
                           detectionHr: int, detectionFlag: bool, initHr: int, modes: seq<DisplayMode>,
                           supports: (int, CaptureStills.PixelFormat) -> (int, bool))

  /** The device supports capture: bit 0 of the I/O support attribute
      (bmdDeviceSupportsCapture) is set. */
  predicate SupportsCapture(d: Device) { d.ioSupport % 2 != 0 }

  /** The outcome of walking the devices for the one at `deckLinkIndex`. */
  datatype Pick = NoneSelected | Selected(index: nat, formatDetection: bool) | Refused(message: string)

  /** The checks on the device at the requested index, in order. */
  function CheckDevice(d: Device, index: nat): (r: Pick)
    ensures r.Selected? <==> d.queryOk && d.ioSupportHr == ImageWriter.S_OK && SupportsCapture(d)
    ensures r.Selected? ==> r.index == index
                            && (r.formatDetection <==> d.detectionHr == ImageWriter.S_OK && d.detectionFlag)
  {
    if !d.queryOk then Refused("Unable to get IDeckLinkAttributes interface")
    else if d.ioSupportHr != ImageWriter.S_OK || !SupportsCapture(d) then Refused("Selected device does not support capture")
    else Selected(index, d.detectionHr == ImageWriter.S_OK && d.detectionFlag)
  }

  /** Which device the walk selects: the one at the index if there is one, subject to its
      checks. */
  function PickDevice(devices: seq<Device>, deckLinkIndex: int): Pick {
    if 0 <= deckLinkIndex < |devices| then CheckDevice(devices[deckLinkIndex], deckLinkIndex) else NoneSelected
  }

  /** The display names collected from `devices`, in order, skipping those whose name
      could not be read. */
  function NamesOf(devices: seq<Device>): (names: seq<string>)
    ensures |names| <= |devices|
    ensures forall n :: n in names ==> exists i :: 0 <= i < |devices| && devices[i].nameOk && devices[i].name == n
  {
    if |devices| == 0 then []
    else
      var d := devices[|devices| - 1];
      var front := NamesOf(devices[..|devices| - 1]);
      assert forall n :: n in front ==> exists i :: 0 <= i < |devices| - 1 && devices[i].nameOk && devices[i].name == n;
      front + (if d.nameOk then [d.name] else [])
  }

  /** The names are collected in device order: the names of a longer walk extend those
      of a shorter one by the readable names of the further devices. */
  lemma {:induction false} NamesOfAppend(front: seq<Device>, back: seq<Device>)
    ensures NamesOf(front + back) == NamesOf(front) + NamesOf(back)
    decreases |back|
  {
    if |back| > 0 {
      var last := back[|back| - 1];
      var rest := back[..|back| - 1];
      assert (front + back)[..|front + back| - 1] == front + rest;
      assert back[..|back| - 1] == rest;
      NamesOfAppend(front, rest);
    } else {
      assert front + back == front;
    }
  }

  /** Every readable name of the visited devices is collected. */
  lemma {:induction false} NamesComplete(devices: seq<Device>)
    ensures forall i :: 0 <= i < |devices| && devices[i].nameOk ==> devices[i].name in NamesOf(devices)
    decreases |devices|
  {
    if |devices| > 0 {
      var front := devices[..|devices| - 1];
      NamesComplete(front);
      forall i | 0 <= i < |devices| - 1 && devices[i].nameOk
        ensures devices[i].name in NamesOf(devices)
      {
        assert front[i] == devices[i];
      }
    }
  }

  /** How many devices the walk visits: all of them, unless the selected one is refused,
      which ends the walk there. */
  function Visited(devices: seq<Device>, deckLinkIndex: int): nat
    ensures Visited(devices, deckLinkIndex) <= |devices|
  {
    if PickDevice(devices, deckLinkIndex).Refused? then deckLinkIndex + 1 else |devices|
  }

  /** The device loop: walk every device, collect its name, and check the one whose
      position matches the requested index; a failed check ends the walk. */
  method SelectDevice(devices: seq<Device>, deckLinkIndex: int) returns (pick: Pick, names: seq<string>)
    ensures pick == PickDevice(devices, deckLinkIndex)
    ensures names == NamesOf(devices[..Visited(devices, deckLinkIndex)])
  {
    pick := NoneSelected;
    names := [];
    var idx := 0;
    while idx < |devices|
      invariant 0 <= idx <= |devices|
      invariant names == NamesOf(devices[..idx])
      invariant pick == if 0 <= deckLinkIndex < idx then PickDevice(devices, deckLinkIndex) else NoneSelected
      invariant 0 <= deckLinkIndex < idx ==> !pick.Refused?
    {
      var deckLink := devices[idx];
      if deckLink.nameOk {
        names := names + [deckLink.name];
      }
      assert devices[..idx + 1][..idx] == devices[..idx];
      var matched := idx == deckLinkIndex;
      idx := idx + 1;
      if matched {
        var checked := CheckDevice(deckLink, deckLinkIndex);
        if checked.Refused? {
          return checked, names;
        }
        pick := checked;
      }
    }
    assert devices[..|devices|] == devices;
  }

  /** A device is selected exactly when the index names one that passes its checks, and
      the walk collects every readable name unless the selected device is refused. */
  lemma SelectionOutcome(devices: seq<Device>, deckLinkIndex: int)
    ensures PickDevice(devices, deckLinkIndex).Selected? <==>
      0 <= deckLinkIndex < |devices| && devices[deckLinkIndex].queryOk
      && devices[deckLinkIndex].ioSupportHr == ImageWriter.S_OK && SupportsCapture(devices[deckLinkIndex])
    ensures PickDevice(devices, deckLinkIndex).NoneSelected? <==> !(0 <= deckLinkIndex < |devices|)
    ensures !PickDevice(devices, deckLinkIndex).Refused? ==> Visited(devices, deckLinkIndex) == |devices|
  {
  }

  // ---------------------------------------------------------------------------
  // Negotiation and the probe

  /** The display mode the capture starts in when the input format is detected. */
  const ModeNTSC := 0x6E747363 // 'ntsc'

  /** What the start-up settles on. */
  datatype Config = Config(displayMode: int, displayModeName: string, pixelFormatIndex: int, formatDetection: bool)

  datatype Negotiated = Agreed(config: Config) | Disagreed(message: string)

  /** Initialise the selected device's input and settle the display mode and the pixel
      format: index -1 asks for format detection, which the device must support and which
      starts in NTSC with pixel format 0; any other index must name one of the device's
      modes, the pixel format index must name an entry of the table, and the device must
      support the pair. */
  function Negotiate(d: Device, formatDetection: bool, displayModeIndex: int, pixelFormatIndex: int): (r: Negotiated)
    ensures r.Agreed? ==> -1 <= displayModeIndex < |d.modes| && d.initHr == ImageWriter.S_OK
    ensures r.Agreed? ==> (r.config.formatDetection <==> displayModeIndex == -1)
    ensures r.Agreed? && displayModeIndex == -1 ==>
      formatDetection && r.config.displayMode == ModeNTSC && r.config.pixelFormatIndex == 0
    ensures r.Agreed? && displayModeIndex != -1 ==>
      0 <= pixelFormatIndex < |CaptureStills.SupportedPixelFormats|
      && r.config.pixelFormatIndex == pixelFormatIndex
      && r.config.displayMode == d.modes[displayModeIndex].mode
      && d.supports(d.modes[displayModeIndex].mode, CaptureStills.PixelFormatValue(pixelFormatIndex))
         == (ImageWriter.S_OK, true)
  {
    if d.initHr != ImageWriter.S_OK then Disagreed("Unable to initialize DeckLink input interface")
    else if displayModeIndex < -1 || displayModeIndex >= |d.modes| then Disagreed("You must select a valid display mode")
    else if displayModeIndex == -1 then
      if !formatDetection then Disagreed("Format detection is not supported on this device")
      else Agreed(Config(ModeNTSC, "Automatic mode detection", 0, true))
    else if pixelFormatIndex < 0 || pixelFormatIndex >= |CaptureStills.SupportedPixelFormats| then
      Disagreed("You must select a valid pixel format")
    else
      var m := d.modes[displayModeIndex];
      var name := if m.nameOk then m.name else "";
      var answer := d.supports(m.mode, CaptureStills.PixelFormatValue(pixelFormatIndex));
      if answer.0 != ImageWriter.S_OK || !answer.1 then
        Disagreed("Display mode " + name + " with pixel format "
                  + CaptureStills.PixelFormatString(pixelFormatIndex) + " is not supported by device")
      else Agreed(Config(m.mode, name, pixelFormatIndex, false))
  }

  /** The settings the negotiation accepts: the device's input initialises, and either
      format detection is asked for (mode index -1) and supported, or the mode index
      names one of the device's modes, the pixel format index names an entry of the
      table, and the device supports the pair. */
  predicate SettingsValid(d: Device, formatDetection: bool, displayModeIndex: int, pixelFormatIndex: int) {
    && d.initHr == ImageWriter.S_OK
    && -1 <= displayModeIndex < |d.modes|
    && if displayModeIndex == -1 then formatDetection
       else
         && 0 <= pixelFormatIndex < |CaptureStills.SupportedPixelFormats|
         && d.supports(d.modes[displayModeIndex].mode, CaptureStills.PixelFormatValue(pixelFormatIndex))
            == (ImageWriter.S_OK, true)
  }

  /** The negotiation agrees exactly on valid settings. */
  lemma NegotiateAgreed(d: Device, formatDetection: bool, displayModeIndex: int, pixelFormatIndex: int)
    ensures Negotiate(d, formatDetection, displayModeIndex, pixelFormatIndex).Agreed?
            <==> SettingsValid(d, formatDetection, displayModeIndex, pixelFormatIndex)
  {
  }

  /** Everything the start-up asks the platform: initialising COM, creating the imaging
      factory and the device iterator, the devices, and the probe's answers (starting the
      capture, and whether a frame arrives before the timeout). */
  datatype Platform = Platform(comHr: int, imageWriterHr: int, iteratorHr: int, devices: seq<Device>,
                               probeStartHr: int, frameArrives: bool)

  /** How the start-up ends: the process exits because the port is out of range, or the
      server goes on in INITIALIZATION_ERROR with a message (noting whether a device had
      been selected, whether the probe had started capturing, and the port number as it
      stood when the start-up failed), or it starts IDLE. */
  datatype Boot =
    | PortRejected
    | BootFailed(message: string, selected: bool, probeStarted: bool, port: int)
    | Booted(config: Config)

  /** The port range the start-up accepts. */
  predicate PortInRange(port: int) { 2000 <= port <= 65535 }

  /** The port numbers a TCP socket can be bound to; the server listens after a failed
      start-up only when its port number is one of them. */
  predicate Listenable(port: int) { 0 <= port <= 65535 }

  /** The start-up, check by check, for a command line whose options all have values. */
  function BootSpec(argv: seq<string>, p: Platform): Boot
    requires ScanArgs(argv).Some?
  {
    var f := ScanArgs(argv).value;
    // the platform is set up before the command line is scanned: the port is still -1
    var unscanned := DefaultFlags.portNo;
    if ImageWriter.Failed(p.comHr) then BootFailed("Initialization of COM failed", false, false, unscanned)
    else if ImageWriter.Failed(p.imageWriterHr) then BootFailed("Initialization of ImageWriter failed", false, false, unscanned)
    else if p.iteratorHr != ImageWriter.S_OK then BootFailed("Initialization of deckLinkIterator failed", false, false, unscanned)
    // the device index is checked before the port range
    else if f.deckLinkIndex < 0 then BootFailed("You must select a device", false, false, f.portNo)
    else if !PortInRange(f.portNo) then PortRejected
    else
      match PickDevice(p.devices, f.deckLinkIndex)
      case Refused(msg) => BootFailed(msg, false, false, f.portNo)
      case NoneSelected => BootFailed("Invalid input device selected", false, false, f.portNo)
      case Selected(index, detection) =>
        match Negotiate(p.devices[index], detection, f.displayModeIndex, f.pixelFormatIndex)
        case Disagreed(msg) => BootFailed(msg, true, false, f.portNo)
        case Agreed(config) =>
          if p.probeStartHr != ImageWriter.S_OK then BootFailed("Failed to start capture", true, false, f.portNo)
          else if !p.frameArrives then BootFailed("Timeout waiting for valid frame", true, true, f.portNo)
          else Booted(config)
  }

  /** The start-up succeeds exactly when every platform call succeeds, a device index is
      given, the port is in range, the device at the index passes its checks, the mode
      and pixel format are valid settings for it, and the probe sees a frame. A negative device index
      fails with "You must select a device" once the platform is up. */
  lemma BootedIff(argv: seq<string>, p: Platform)
    requires ScanArgs(argv).Some?
    ensures var f := ScanArgs(argv).value;
            var pick := PickDevice(p.devices, f.deckLinkIndex);
            BootSpec(argv, p).Booted? <==>
              && !ImageWriter.Failed(p.comHr) && !ImageWriter.Failed(p.imageWriterHr)
              && p.iteratorHr == ImageWriter.S_OK
              && f.deckLinkIndex >= 0 && PortInRange(f.portNo)
              && pick.Selected?
              && SettingsValid(p.devices[pick.index], pick.formatDetection, f.displayModeIndex, f.pixelFormatIndex)
              && p.probeStartHr == ImageWriter.S_OK && p.frameArrives
    ensures var f := ScanArgs(argv).value;
            !ImageWriter.Failed(p.comHr) && !ImageWriter.Failed(p.imageWriterHr)
            && p.iteratorHr == ImageWriter.S_OK && f.deckLinkIndex < 0
            ==> BootSpec(argv, p) == BootFailed("You must select a device", false, false, f.portNo)
  {
    var f := ScanArgs(argv).value;
    var pick := PickDevice(p.devices, f.deckLinkIndex);
    if pick.Selected? {
      SelectionOutcome(p.devices, f.deckLinkIndex);
      NegotiateAgreed(p.devices[pick.index], pick.formatDetection, f.displayModeIndex, f.pixelFormatIndex);
    }
  }

  /** The port a failed start-up leaves: -1 when COM, the imaging factory or the device
      iterator failed, since the command line has not been scanned yet; otherwise the
      scanned port, which lies in the accepted range unless the device index was
      missing. */
  lemma FailedBootPort(argv: seq<string>, p: Platform)
    requires ScanArgs(argv).Some? && BootSpec(argv, p).BootFailed?
    ensures var f := ScanArgs(argv).value;
            var port := BootSpec(argv, p).port;
            var platformFailed := ImageWriter.Failed(p.comHr) || ImageWriter.Failed(p.imageWriterHr)
                                  || p.iteratorHr != ImageWriter.S_OK;
            && (platformFailed ==> port == -1)
            && (!platformFailed ==> port == f.portNo)
            && (!platformFailed && f.deckLinkIndex >= 0 ==> PortInRange(port))
  {
  }

  /** A start-up that succeeds has a configuration that obeys the negotiation's rules:
      format detection exactly when the mode index is -1, and then pixel format 0 and
      NTSC; otherwise a pixel format from the table and a mode of the device. */
  lemma BootedConfig(argv: seq<string>, p: Platform)
    requires ScanArgs(argv).Some? && BootSpec(argv, p).Booted?
    ensures var f := ScanArgs(argv).value;
            var c := BootSpec(argv, p).config;
            && 0 <= f.deckLinkIndex < |p.devices|
            && -1 <= f.displayModeIndex < |p.devices[f.deckLinkIndex].modes|
            && (c.formatDetection <==> f.displayModeIndex == -1)
            && (c.formatDetection ==> c.pixelFormatIndex == 0 && c.displayMode == ModeNTSC)
            && (!c.formatDetection ==>
                  && c.pixelFormatIndex == f.pixelFormatIndex
                  && 0 <= c.pixelFormatIndex < |CaptureStills.SupportedPixelFormats|
                  && c.displayMode == p.devices[f.deckLinkIndex].modes[f.displayModeIndex].mode)
  {
    var f := ScanArgs(argv).value;
    var pick := PickDevice(p.devices, f.deckLinkIndex);
    assert pick.Selected? && pick.index == f.deckLinkIndex;
  }
}

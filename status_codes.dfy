/** The routine status-code classifier. Given the kind of a diagnostics
    routine and a status record reported by the backend, `fillStatusCode`
    annotates the record with a stable numeric `status_code`: 1 for a passed
    routine, and for a failed or errored one whatever the kind's lookup
    function returns. Every kind owns a block of codes of its own; the code 2
    is the shared "exception" code. */
module StatusCodes {
  import opened Wrappers
  import opened Decimal

  const CodeRoutinePassed: int := 0x0000001
  const CodeRoutineException: int := 0x0000002

  /** One kind per getStatusCodeFor<Kind> lookup function. */
  datatype RoutineKind =
    | AcPower | AudioDriver | BatteryCapacity | BatteryCharge | BatteryDischarge
    | BatteryHealth | BluetoothDiscovery | BluetoothPairing | BluetoothPower
    | BluetoothScanning | CpuCache | CpuStress | DiskRead | DnsResolution
    | DnsResolverPresent | EmmcLifetime | Fan | FingerprintAlive
    | FloatingPointAccuracy | GatewayCanBePinged | LanConnectivity | Memory
    | NvmeSelfTest | NvmeWearLevel | PowerButton | PrimeSearch | SensitiveSensor
    | SignalStrength | SmartctlCheck | UfsLifeTime

  /** The parsed `output` payload of the audio driver routine; a field that
      the payload lacks reads as false. */
  datatype AudioOutput = AudioOutput(internalCardDetected: bool, audioDevicesSucceedToOpen: bool)

  /** A routine status record as the backend reports it. The field names are
      the record's own keys: the lookup tables read `status_message`, the
      audio driver's exception patterns read `statusMessage`, and the
      classifier writes `status_code`. `None` stands for an absent key. */
  datatype RoutineStatus = RoutineStatus(
    progressPercent: int,
    status: string,
    status_message: Option<string>,
    statusMessage: Option<string>,
    output: Option<AudioOutput>,
    userMessage: Option<string>,
    status_code: Option<int>)

  /** The statuses the classifier assigns a code to. */
  predicate IsClassified(status: string) {
    status == "passed" || status == "failed" || status == "error"
  }

  // ---------------------------------------------------------------------
  // Code spaces

  /** The specific codes of a kind are `prefix * 0x10000 + 1` up to
      `prefix * 0x10000 + count`. */
  datatype CodeBlock = CodeBlock(prefix: nat, count: nat)

  /** The block of each kind that has specific codes; disk read, floating
      point accuracy and prime search have none. */
  function BlockOf(kind: RoutineKind): Option<CodeBlock> {
    match kind
    case AcPower => Some(CodeBlock(0x001, 3))
    case AudioDriver => Some(CodeBlock(0x006, 2))
    case BatteryCapacity => Some(CodeBlock(0x007, 1))
    case BatteryCharge => Some(CodeBlock(0x008, 2))
    case BatteryDischarge => Some(CodeBlock(0x009, 2))
    case BatteryHealth => Some(CodeBlock(0x00A, 2))
    case BluetoothDiscovery => Some(CodeBlock(0x00B, 4))
    case BluetoothPairing => Some(CodeBlock(0x00C, 8))
    case BluetoothPower => Some(CodeBlock(0x00D, 4))
    case BluetoothScanning => Some(CodeBlock(0x00E, 3))
    case CpuCache => Some(CodeBlock(0x010, 1))
    case CpuStress => Some(CodeBlock(0x011, 1))
    case DiskRead => None
    case DnsResolution => Some(CodeBlock(0x014, 1))
    case DnsResolverPresent => Some(CodeBlock(0x015, 2))
    case EmmcLifetime => Some(CodeBlock(0x016, 1))
    case Fan => Some(CodeBlock(0x017, 1))
    case FingerprintAlive => Some(CodeBlock(0x019, 2))
    case FloatingPointAccuracy => None
    case GatewayCanBePinged => Some(CodeBlock(0x01B, 5))
    case LanConnectivity => Some(CodeBlock(0x020, 1))
    case Memory => Some(CodeBlock(0x022, 1))
    case NvmeSelfTest => Some(CodeBlock(0x023, 9))
    case NvmeWearLevel => Some(CodeBlock(0x024, 1))
    case PowerButton => Some(CodeBlock(0x025, 1))
    case PrimeSearch => None
    case SensitiveSensor => Some(CodeBlock(0x028, 2))
    case SignalStrength => Some(CodeBlock(0x029, 1))
    case SmartctlCheck => Some(CodeBlock(0x02A, 1))
    case UfsLifeTime => Some(CodeBlock(0x02B, 1))
  }

  /** The kind whose block has the given prefix: the inverse of `BlockOf`. */
  function KindWithPrefix(prefix: nat): Option<RoutineKind> {
    match prefix
    case 0x001 => Some(AcPower)
    case 0x006 => Some(AudioDriver)
    case 0x007 => Some(BatteryCapacity)
    case 0x008 => Some(BatteryCharge)
    case 0x009 => Some(BatteryDischarge)
    case 0x00A => Some(BatteryHealth)
    case 0x00B => Some(BluetoothDiscovery)
    case 0x00C => Some(BluetoothPairing)
    case 0x00D => Some(BluetoothPower)
    case 0x00E => Some(BluetoothScanning)
    case 0x010 => Some(CpuCache)
    case 0x011 => Some(CpuStress)
    case 0x014 => Some(DnsResolution)
    case 0x015 => Some(DnsResolverPresent)
    case 0x016 => Some(EmmcLifetime)
    case 0x017 => Some(Fan)
    case 0x019 => Some(FingerprintAlive)
    case 0x01B => Some(GatewayCanBePinged)
    case 0x020 => Some(LanConnectivity)
    case 0x022 => Some(Memory)
    case 0x023 => Some(NvmeSelfTest)
    case 0x024 => Some(NvmeWearLevel)
    case 0x025 => Some(PowerButton)
    case 0x028 => Some(SensitiveSensor)
    case 0x029 => Some(SignalStrength)
    case 0x02A => Some(SmartctlCheck)
    case 0x02B => Some(UfsLifeTime)
    case _ => None
  }

  /** The codes `kind` may return: the shared exception code and its own block. */
  predicate InCodeSpace(kind: RoutineKind, c: int) {
    || c == CodeRoutineException
    || (BlockOf(kind).Some? &&
        BlockOf(kind).value.prefix * 0x10000 < c <= BlockOf(kind).value.prefix * 0x10000 + BlockOf(kind).value.count)
  }

  // ---------------------------------------------------------------------
  // The exact-message switches
  //
  // Long case labels are written as concatenations of short literals; the
  // value is the label string itself, and short literals keep the solver's
  // work on string constants small.

  /** One `case` label of a message switch and the code it returns. */
  datatype Entry = Entry(message: string, code: int)

  /** The position of the first label equal to `m`: the `case` a JavaScript
      `switch` enters. `FirstLabelIsFirst` states what it finds. */
  function FirstLabel(table: seq<Entry>, m: string): (r: Option<nat>)
    ensures r.Some? ==> r.value < |table|
  {
    if table == [] then None
    else if table[0].message == m then Some(0)
    else match FirstLabel(table[1..], m)
      case None => None
      case Some(i) => Some(i + 1)
  }

  /** A switch enters the first case whose label is the message, and falls
      to `default` exactly when no label is. */
  lemma {:induction false} FirstLabelIsFirst(table: seq<Entry>, m: string)
    ensures FirstLabel(table, m).Some? ==> table[FirstLabel(table, m).value].message == m
    ensures FirstLabel(table, m).Some? ==> forall j :: 0 <= j < FirstLabel(table, m).value ==> table[j].message != m
    ensures FirstLabel(table, m).None? <==> forall i :: 0 <= i < |table| ==> table[i].message != m
  {
    if table != [] && table[0].message != m {
      FirstLabelIsFirst(table[1..], m);
      assert forall i :: 1 <= i < |table| ==> table[i] == table[1..][i - 1];
    }
  }

  /** The case labels of each kind's switch; the audio driver, floating point
      accuracy and prime search functions have none. */
  function Cases(kind: RoutineKind): (r: seq<Entry>)
    ensures r == [] <==> kind in {AudioDriver, FloatingPointAccuracy, PrimeSearch}
  {
    match kind
    // getStatusCodeForAcPower, status_codes.js lines 53-66
    case AcPower => [
        Entry("Expected " + "online " + "power " + "supply, " + "found " + "offline " + "power " + "supply.", 0x0010001),
        Entry("Expected " + "offline " + "power " + "supply, " + "found " + "online " + "power " + "supply.", 0x0010002),
        Entry("Read " + "power " + "type " + "different " + "from " + "expected " + "power " + "type.", 0x0010003),
        Entry("No " + "valid " + "AC " + "power " + "supply " + "found.", CodeRoutineException)
      ]
    case AudioDriver => []
    // getStatusCodeForBatteryCapacity, status_codes.js lines 104-114
    case BatteryCapacity => [
        Entry("Battery " + "design " + "capacity " + "not " + "within " + "given " + "limits.", 0x0070001),
        Entry("Invalid " + "BatteryCapacityRoutineParameters.", CodeRoutineException),
        Entry("Failed " + "to " + "get " + "power " + "supply " + "properties " + "from " + "powerd.", CodeRoutineException)
      ]
    // getStatusCodeForBatteryCharge, status_codes.js lines 122-135
    case BatteryCharge => [
        Entry("Battery " + "is " + "not " + "charging.", 0x0080001),
        Entry("Battery " + "charge " + "percent " + "less " + "than " + "minimum " + "required " + "charge " + "percent.", 0x0080002),
        Entry("Invalid " + "minimum " + "required " + "charge " + "percent " + "requested.", CodeRoutineException),
        Entry("Failed " + "to " + "read " + "battery " + "attributes " + "from " + "sysfs.", CodeRoutineException),
        Entry("Failed " + "to " + "get " + "power " + "supply " + "properties " + "from " + "powerd.", CodeRoutineException)
      ]
    // getStatusCodeForBatteryDischarge, status_codes.js lines 143-156
    case BatteryDischarge => [
        Entry("Battery " + "is " + "not " + "discharging.", 0x0090001),
        Entry("Battery " + "discharge " + "rate " + "greater " + "than " + "maximum " + "allowed " + "discharge " + "rate.", 0x0090002),
        Entry("Maximum " + "allowed " + "discharge " + "percent " + "must " + "be " + "less " + "than " + "or " + "equal " + "to " + "100.", CodeRoutineException),
        Entry("Failed " + "to " + "read " + "battery " + "attributes " + "from " + "sysfs.", CodeRoutineException),
        Entry("Failed " + "to " + "get " + "power " + "supply " + "properties " + "from " + "powerd.", CodeRoutineException)
      ]
    // getStatusCodeForBatteryHealth, status_codes.js lines 164-178
    case BatteryHealth => [
        Entry("Battery " + "is " + "over-worn.", 0x00A0001),
        Entry("Battery " + "cycle " + "count " + "is " + "too " + "high.", 0x00A0002),
        Entry("Could " + "not " + "get " + "cycle " + "count.", CodeRoutineException),
        Entry("Invalid " + "battery " + "health " + "routine " + "parameters.", CodeRoutineException),
        Entry("Could " + "not " + "get " + "wear " + "percentage.", CodeRoutineException),
        Entry("Failed " + "to " + "get " + "power " + "supply " + "properties " + "from " + "powerd.", CodeRoutineException)
      ]
    // getStatusCodeForBluetoothDiscovery, status_codes.js lines 186-201
    case BluetoothDiscovery => [
        Entry("Bluetooth " + "routine " + "failed " + "to " + "validate " + "adapter " + "discovering " + "status.", 0x00B0001),
        Entry("Bluetooth " + "routine " + "failed " + "to " + "get " + "main " + "adapter.", 0x00B0002),
        Entry("Bluetooth " + "routine " + "failed " + "to " + "change " + "adapter " + "powered " + "status.", 0x00B0003),
        Entry("Bluetooth " + "routine " + "failed " + "to " + "switch " + "adapter " + "discovery " + "mode.", 0x00B0004),
        Entry("Unexpected " + "Bluetooth " + "diagnostic " + "flow.", CodeRoutineException)
      ]
    // getStatusCodeForBluetoothPairing, status_codes.js lines 209-233
    case BluetoothPairing => [
        Entry("Bluetooth " + "routine " + "failed " + "to " + "find " + "the " + "device " + "with " + "peripheral " + "ID.", 0x00C0001),
        Entry("Bluetooth " + "routine " + "failed " + "to " + "create " + "baseband " + "connection.", 0x00C0002),
        Entry("Bluetooth " + "routine " + "failed " + "to " + "finish " + "pairing.", 0x00C0003),
        Entry("Bluetooth " + "routine " + "failed " + "to " + "get " + "main " + "adapter.", 0x00C0004),
        Entry("Bluetooth " + "routine " + "failed " + "to " + "change " + "adapter " + "powered " + "status.", 0x00C0005),
        Entry("Bluetooth " + "routine " + "failed " + "to " + "switch " + "adapter " + "discovery " + "mode.", 0x00C0006),
        Entry("Bluetooth " + "routine " + "failed " + "to " + "remove " + "target " + "peripheral.", 0x00C0007),
        Entry("The " + "target " + "peripheral " + "is " + "already " + "paired", 0x00C0008),
        Entry("Bluetooth " + "routine " + "failed " + "to " + "set " + "target " + "device's " + "alias", CodeRoutineException),
        Entry("Unexpected " + "Bluetooth " + "diagnostic " + "flow.", CodeRoutineException)
      ]
    // getStatusCodeForBluetoothPower, status_codes.js lines 241-257
    case BluetoothPower => [
        Entry("Bluetooth " + "routine " + "is " + "not " + "supported " + "when " + "adapter " + "is " + "in " + "discovery " + "mode.", 0x00D0001),
        Entry("Bluetooth " + "routine " + "failed " + "to " + "get " + "main " + "adapter.", 0x00D0002),
        Entry("Bluetooth " + "routine " + "failed " + "to " + "change " + "adapter " + "powered " + "status.", 0x00D0003),
        Entry("Bluetooth " + "routine " + "failed " + "to " + "validate " + "adapter " + "powered " + "status.", 0x00D0004),
        Entry("Unexpected " + "Bluetooth " + "diagnostic " + "flow.", CodeRoutineException)
      ]
    // getStatusCodeForBluetoothScanning, status_codes.js lines 265-279
    case BluetoothScanning => [
        Entry("Bluetooth " + "routine " + "failed " + "to " + "change " + "adapter " + "powered " + "status.", 0x00E0001),
        Entry("Bluetooth " + "routine " + "failed " + "to " + "switch " + "adapter " + "discovery " + "mode.", 0x00E0002),
        Entry("Bluetooth " + "routine " + "failed " + "to " + "get " + "main " + "adapter.", 0x00E0003),
        Entry("Routine " + "execution " + "time " + "should " + "be " + "strictly " + "greater " + "than " + "zero.", CodeRoutineException),
        Entry("Unexpected " + "Bluetooth " + "diagnostic " + "flow.", CodeRoutineException)
      ]
    // getStatusCodeForCpuCache, status_codes.js lines 288-303
    case CpuCache => [
        Entry("Memory " + "info " + "not " + "found", CodeRoutineException),
        Entry("Not " + "enough " + "memory " + "to " + "run " + "stressapptest", CodeRoutineException),
        Entry("process " + "control " + "disconnected " + "before " + "routine " + "finished", CodeRoutineException)
      ]
    // getStatusCodeForCpuStress, status_codes.js lines 311-326
    case CpuStress => [
        Entry("Memory " + "info " + "not " + "found", CodeRoutineException),
        Entry("Not " + "enough " + "memory " + "to " + "run " + "stressapptest", CodeRoutineException),
        Entry("process " + "control " + "disconnected " + "before " + "routine " + "finished", CodeRoutineException)
      ]
    // getStatusCodeForDiskRead, status_codes.js lines 334-352
    case DiskRead => [
        Entry("Disk " + "read " + "duration " + "should " + "not " + "be " + "zero " + "after " + "rounding " + "towards " + "zero " + "to " + "the " + "nearest " + "second", CodeRoutineException),
        Entry("Test " + "file " + "size " + "should " + "not " + "be " + "zero", CodeRoutineException),
        Entry("Unexpected " + "disk " + "read " + "type", CodeRoutineException),
        Entry("Unexpected " + "flow " + "in " + "disk " + "read " + "routine", CodeRoutineException),
        Entry("Failed " + "to " + "clean " + "up " + "storage", CodeRoutineException),
        Entry("Failed " + "to " + "retrieve " + "free " + "storage " + "space", CodeRoutineException),
        Entry("Failed " + "to " + "reserve " + "sufficient " + "storage " + "space", CodeRoutineException),
        Entry("Failed " + "to " + "complete " + "fio " + "prepare " + "job", CodeRoutineException),
        Entry("Failed " + "to " + "complete " + "fio " + "read " + "job", CodeRoutineException),
        Entry("Failed " + "to " + "access " + "fio " + "stderr", CodeRoutineException),
        Entry("Failed " + "to " + "read " + "fio " + "stderr", CodeRoutineException)
      ]
    // getStatusCodeForDnsResolution, status_codes.js lines 360-369
    case DnsResolution => [
        Entry("Failed " + "to " + "resolve " + "host.", 0x0140001),
        Entry("DNS " + "resolution " + "routine " + "did " + "not " + "run.", CodeRoutineException)
      ]
    // getStatusCodeForDnsResolverPresent, status_codes.js lines 377-388
    case DnsResolverPresent => [
        Entry("IP " + "config " + "has " + "no " + "list " + "of " + "name " + "servers " + "available.", 0x0150001),
        Entry("IP " + "config " + "has " + "a " + "list " + "of " + "at " + "least " + "one " + "malformed " + "name " + "server.", 0x0150002),
        Entry("DNS " + "resolver " + "present " + "routine " + "did " + "not " + "run.", CodeRoutineException)
      ]
    // getStatusCodeForEmmcLifetime, status_codes.js lines 396-406
    case EmmcLifetime => [
        Entry("Pre-EOL " + "info " + "is " + "not " + "normal.", 0x0160001),
        Entry("Debugd " + "returns " + "error.", CodeRoutineException),
        Entry("Failed " + "to " + "parse " + "mmc " + "output.", CodeRoutineException)
      ]
    // getStatusCodeForFan, status_codes.js lines 413-440
    case Fan => [
        Entry("cros " + "config " + "fan " + "count " + "must " + "be " + "a " + "valid " + "number", CodeRoutineException),
        Entry("routine " + "unsupported " + "for " + "device " + "with " + "no " + "fan", CodeRoutineException),
        Entry("Invalid " + "routine " + "stage", CodeRoutineException),
        Entry("Failed " + "to " + "get " + "number " + "of " + "fans", CodeRoutineException),
        Entry("Failed " + "to " + "read " + "fan " + "speed", CodeRoutineException),
        Entry("Failed " + "to " + "set " + "fan " + "speed", CodeRoutineException),
        Entry("Failed " + "to " + "read " + "thermal " + "sensor " + "version", CodeRoutineException),
        Entry("Error " + "initializing " + "udev", CodeRoutineException)
      ]
    // getStatusCodeForFingerprintAlive, status_codes.js lines 449-458
    case FingerprintAlive => [
        Entry("Failed " + "to " + "get " + "fingerprint " + "info.", 0x0190001),
        Entry("Fingerprint " + "does " + "not " + "use " + "a " + "RW " + "firmware " + "copy.", 0x0190002)
      ]
    case FloatingPointAccuracy => []
    // getStatusCodeForGatewayCanBePinged, status_codes.js lines 479-497
    case GatewayCanBePinged => [
        Entry("All " + "gateways " + "are " + "unreachable, " + "hence " + "cannot " + "be " + "pinged.", 0x01B0001),
        Entry("The " + "default " + "network " + "cannot " + "be " + "pinged.", 0x01B0002),
        Entry("The " + "default " + "network " + "has " + "a " + "latency " + "above " + "the " + "threshold.", 0x01B0003),
        Entry("One " + "or " + "more " + "of " + "the " + "non-default " + "networks " + "has " + "failed " + "pings.", 0x01B0004),
        Entry("One " + "or " + "more " + "of " + "the " + "non-default " + "networks " + "has " + "a " + "latency " + "above " + "the " + "threshold.", 0x01B0005),
        Entry("Gateway " + "can " + "be " + "pinged " + "routine " + "did " + "not " + "run.", CodeRoutineException)
      ]
    // getStatusCodeForLanConnectivity, status_codes.js lines 505-514
    case LanConnectivity => [
        Entry("No " + "LAN " + "Connectivity " + "detected.", 0x0200001),
        Entry("LAN " + "Connectivity " + "routine " + "did " + "not " + "run.", CodeRoutineException)
      ]
    // getStatusCodeForMemory, status_codes.js lines 521-538
    case Memory => [
        Entry("Memory " + "info " + "not " + "found", CodeRoutineException),
        Entry("Less " + "than " + "4 " + "KiB " + "memory " + "available, " + "not " + "enough " + "to " + "run " + "memtester.", CodeRoutineException),
        Entry("Error " + "in " + "calling " + "memtester", CodeRoutineException),
        Entry("Error " + "allocating " + "or " + "locking " + "memory, " + "or " + "invoking " + "the " + "memtester " + "binary", CodeRoutineException),
        Entry("Error " + "parsing " + "memtester " + "output", CodeRoutineException)
      ]
    // getStatusCodeForNvmeSelfTest, status_codes.js lines 546-580
    case NvmeSelfTest => [
        Entry("SelfTest " + "status: " + "self-test " + "failed " + "to " + "start.", 0x0230001),
        Entry("SelfTest " + "status: " + "Operation " + "was " + "aborted " + "by " + "Device " + "Self-test " + "command.", 0x0230002),
        Entry("SelfTest " + "status: " + "Operation " + "was " + "aborted " + "by " + "a " + "Controller " + "Level " + "Reset.", 0x0230003),
        Entry("SelfTest " + "status: " + "Operation " + "was " + "aborted " + "due " + "to " + "a " + "removal " + "of " + "a " + "namespace " + "from " + "the " + "namespace " + "inventory.", 0x0230004),
        Entry("SelfTest " + "Status: " + "Operation " + "was " + "aborted " + "due " + "to " + "the " + "processing " + "of " + "a " + "Format " + "NVM " + "command.", 0x0230005),
        Entry("SelfTest " + "status: " + "A " + "fatal " + "error " + "or " + "unknown " + "test " + "error " + "occurred " + "while " + "the " + "controller " + "was " + "executing " + "the " + "device " + "self-test " + "operation " + "and " + "the " + "operation " + "did " + "not " + "complete.", 0x0230006),
        Entry("SelfTest " + "status: " + "Operation " + "completed " + "with " + "a " + "segment " + "that " + "failed " + "and " + "the " + "segment " + "that " + "failed " + "is " + "not " + "known.", 0x0230007),
        Entry("SelfTest " + "status: " + "Operation " + "completed " + "with " + "one " + "or " + "more " + "failed " + "segments " + "and " + "the " + "first " + "segment " + "that " + "failed " + "is " + "indicated " + "in " + "the " + "Segment " + "Number " + "field.", 0x0230008),
        Entry("SelfTest " + "status: " + "Operation " + "was " + "aborted " + "for " + "an " + "unknown " + "reason.", 0x0230009),
        Entry("SelfTest " + "status: " + "ERROR, " + "self-test " + "abortion " + "failed.", CodeRoutineException),
        Entry("SelfTest " + "status: " + "Unknown " + "complete " + "status.", CodeRoutineException),
        Entry("SelfTest " + "status: " + "ERROR, " + "cannot " + "get " + "percent " + "info.", CodeRoutineException)
      ]
    // getStatusCodeForNvmeWearLevel, status_codes.js lines 588-599
    case NvmeWearLevel => [
        Entry("Wear-level " + "status: " + "FAILED, " + "exceed " + "the " + "limitation " + "value.", 0x0240001),
        Entry("Wear-level " + "status: " + "ERROR, " + "threshold " + "in " + "percentage " + "should " + "be " + "non-empty " + "and " + "under " + "100.", CodeRoutineException),
        Entry("Wear-level " + "status: " + "ERROR, " + "cannot " + "get " + "wear " + "level " + "info.", CodeRoutineException)
      ]
    // getStatusCodeForPowerButton, status_codes.js lines 607-622
    case PowerButton => [
        Entry("Routine " + "failed. " + "No " + "power " + "button " + "event " + "observed.", 0x0250001),
        Entry("Routine " + "error. " + "Unable " + "to " + "listen " + "for " + "power " + "button " + "events.", CodeRoutineException)
      ]
    case PrimeSearch => []
    // getStatusCodeForSensitiveSensor, status_codes.js lines 643-654
    case SensitiveSensor => [
        Entry("Sensitive " + "sensor " + "routine " + "failed " + "to " + "pass " + "all " + "sensors.", 0x0280001),
        Entry("Sensitive " + "sensor " + "routine " + "failed " + "to " + "pass " + "configuration " + "check.", 0x0280002),
        Entry("Sensitive " + "sensor " + "routine " + "failed " + "unexpectedly.", CodeRoutineException)
      ]
    // getStatusCodeForSignalStrength, status_codes.js lines 662-671
    case SignalStrength => [
        Entry("Weak " + "signal " + "detected.", 0x0290001),
        Entry("Signal " + "strength " + "routine " + "did " + "not " + "run.", CodeRoutineException)
      ]
    // getStatusCodeForSmartctlCheck, status_codes.js lines 679-691
    case SmartctlCheck => [
        Entry("smartctl-check " + "status: " + "FAILED, " + "one " + "or " + "more " + "checks " + "have " + "failed.", 0x02A0001),
        Entry("smartctl-check " + "status: " + "ERROR, " + "threshold " + "in " + "percentage " + "should " + "be " + "non-empty " + "and " + "between " + "0 " + "and " + "255, " + "inclusive.", CodeRoutineException),
        Entry("smartctl-check " + "status: " + "ERROR, " + "debugd " + "returns " + "error.", CodeRoutineException),
        Entry("smartctl-check " + "status: " + "FAILED, " + "unable " + "to " + "parse " + "smartctl " + "output.", CodeRoutineException)
      ]
    // getStatusCodeForUfsLifeTime, status_codes.js lines 699-714
    case UfsLifeTime => [
        Entry("Unable " + "to " + "determine " + "a " + "bsg " + "node " + "path", CodeRoutineException),
        Entry("Unable " + "to " + "deduce " + "health " + "descriptor " + "path " + "based " + "on " + "the " + "bsg " + "node " + "path", CodeRoutineException),
        Entry("Error " + "reading " + "content " + "from " + "UFS " + "health " + "descriptor", CodeRoutineException)
      ]
  }

  // ---------------------------------------------------------------------
  // Dynamic messages, matched by patterns instead of exact strings

  const ThermalSensorPrefix: string := "Failed to read temperature for thermal sensor idx: "
  const TimeoutRangePrefix: string := "Timeout is not in range ["
  const CrasInternalCardPrefix: string := "Failed to get detected internal card from cras: "
  const CrasNodeInfoPrefix: string := "Failed retrieving node info from cras: "

  /** The anchored pattern `^<prefix>\d+$`: exactly the prefix followed by
      a non-empty run of digits. */
  predicate PrefixThenDigits(prefix: string, m: string)
    ensures PrefixThenDigits(prefix, m) <==> exists d :: IsDigits(d) && m == prefix + d
  {
    assert prefix <= m ==> m == prefix + m[|prefix|..];
    assert forall d :: (prefix + d)[..|prefix|] == prefix && (prefix + d)[|prefix|..] == d;
    prefix <= m && IsDigits(m[|prefix|..])
  }

  /** The anchored pattern `^Timeout is not in range \[\d+, \d+\]$`, scanned
      left to right: the prefix, a digit run, ", ", a digit run, "]". */
  predicate IsTimeoutRangeMessage(m: string)
    ensures IsTimeoutRangeMessage(m) ==>
              TimeoutRangePrefix <= m && m[|m| - 1] == ']' && |m| >= |TimeoutRangePrefix| + 5
  {
    && TimeoutRangePrefix <= m
    && |m| > |TimeoutRangePrefix|
    && m[|m| - 1] == ']'
    && var body := m[|TimeoutRangePrefix|..|m| - 1];
       var n := LeadingDigitCount(body);
       && n > 0
       && |body| >= n + 2
       && body[n..n + 2] == ", "
       && IsDigits(body[n + 2..])
  }

  /** The message the power button routine reports for a bad timeout range. */
  function TimeoutRangeText(low: string, high: string): string {
    TimeoutRangePrefix + low + ", " + high + "]"
  }

  /** The message shapes two kinds match by pattern after their exact cases. */
  predicate IsDynamicException(kind: RoutineKind, m: string)
    ensures IsDynamicException(kind, m) ==> (kind == Fan || kind == PowerButton) && |m| > 0
  {
    match kind
    case Fan => PrefixThenDigits(ThermalSensorPrefix, m)
    case PowerButton => IsTimeoutRangeMessage(m)
    case _ => false
  }

  // ---------------------------------------------------------------------
  // The per-kind lookup functions

  /** The code of the first case whose label is `m`, or `None` when the
      switch falls to its `default`, which returns nothing. */
  function Switch(table: seq<Entry>, m: string): Option<int> {
    match FirstLabel(table, m)
    case None => None
    case Some(i) => Some(table[i].code)
  }

  /** getStatusCodeForAcPower, status_codes.js lines 53-66, for a present message. */
  function AcPowerCode(m: string): (r: Option<int>)
    ensures r.Some? ==> InCodeSpace(AcPower, r.value)
  {
    MessageCode(AcPower, m)
  }

  /** getStatusCodeForBatteryCapacity, status_codes.js lines 104-114, for a present message. */
  function BatteryCapacityCode(m: string): (r: Option<int>)
    ensures r.Some? ==> InCodeSpace(BatteryCapacity, r.value)
  {
    MessageCode(BatteryCapacity, m)
  }

  /** getStatusCodeForBatteryCharge, status_codes.js lines 122-135, for a present message. */
  function BatteryChargeCode(m: string): (r: Option<int>)
    ensures r.Some? ==> InCodeSpace(BatteryCharge, r.value)
  {
    MessageCode(BatteryCharge, m)
  }

  /** getStatusCodeForBatteryDischarge, status_codes.js lines 143-156, for a present message. */
  function BatteryDischargeCode(m: string): (r: Option<int>)
    ensures r.Some? ==> InCodeSpace(BatteryDischarge, r.value)
  {
    MessageCode(BatteryDischarge, m)
  }

  /** getStatusCodeForBatteryHealth, status_codes.js lines 164-178, for a present message. */
  function BatteryHealthCode(m: string): (r: Option<int>)
    ensures r.Some? ==> InCodeSpace(BatteryHealth, r.value)
  {
    MessageCode(BatteryHealth, m)
  }

  /** getStatusCodeForBluetoothDiscovery, status_codes.js lines 186-201, for a present message. */
  function BluetoothDiscoveryCode(m: string): (r: Option<int>)
    ensures r.Some? ==> InCodeSpace(BluetoothDiscovery, r.value)
  {
    MessageCode(BluetoothDiscovery, m)
  }

  /** getStatusCodeForBluetoothPairing, status_codes.js lines 209-233, for a present message. */
  function BluetoothPairingCode(m: string): (r: Option<int>)
    ensures r.Some? ==> InCodeSpace(BluetoothPairing, r.value)
  {
    MessageCode(BluetoothPairing, m)
  }

  /** getStatusCodeForBluetoothPower, status_codes.js lines 241-257, for a present message. */
  function BluetoothPowerCode(m: string): (r: Option<int>)
    ensures r.Some? ==> InCodeSpace(BluetoothPower, r.value)
  {
    MessageCode(BluetoothPower, m)
  }

  /** getStatusCodeForBluetoothScanning, status_codes.js lines 265-279, for a present message. */
  function BluetoothScanningCode(m: string): (r: Option<int>)
    ensures r.Some? ==> InCodeSpace(BluetoothScanning, r.value)
  {
    MessageCode(BluetoothScanning, m)
  }

  /** getStatusCodeForCpuCache, status_codes.js lines 288-303, for a present message. */
  function CpuCacheCode(m: string): (r: Option<int>)
    ensures r.Some? ==> InCodeSpace(CpuCache, r.value)
  {
    MessageCode(CpuCache, m)
  }

  /** getStatusCodeForCpuStress, status_codes.js lines 311-326, for a present message. */
  function CpuStressCode(m: string): (r: Option<int>)
    ensures r.Some? ==> InCodeSpace(CpuStress, r.value)
  {
    MessageCode(CpuStress, m)
  }

  /** getStatusCodeForDiskRead, status_codes.js lines 334-352, for a present message. */
  function DiskReadCode(m: string): (r: Option<int>)
    ensures r.Some? ==> InCodeSpace(DiskRead, r.value)
  {
    MessageCode(DiskRead, m)
  }

  /** getStatusCodeForDnsResolution, status_codes.js lines 360-369, for a present message. */
  function DnsResolutionCode(m: string): (r: Option<int>)
    ensures r.Some? ==> InCodeSpace(DnsResolution, r.value)
  {
    MessageCode(DnsResolution, m)
  }

  /** getStatusCodeForDnsResolverPresent, status_codes.js lines 377-388, for a present message. */
  function DnsResolverPresentCode(m: string): (r: Option<int>)
    ensures r.Some? ==> InCodeSpace(DnsResolverPresent, r.value)
  {
    MessageCode(DnsResolverPresent, m)
  }

  /** getStatusCodeForEmmcLifetime, status_codes.js lines 396-406, for a present message. */
  function EmmcLifetimeCode(m: string): (r: Option<int>)
    ensures r.Some? ==> InCodeSpace(EmmcLifetime, r.value)
  {
    MessageCode(EmmcLifetime, m)
  }

  /** getStatusCodeForFan, status_codes.js lines 413-440, for a present message:
      the cases, then the thermal-sensor pattern. */
  function FanCode(m: string): (r: Option<int>)
    ensures r.Some? ==> InCodeSpace(Fan, r.value)
  {
    MessageCode(Fan, m)
  }

  /** getStatusCodeForFingerprintAlive, status_codes.js lines 449-458, for a present message. */
  function FingerprintAliveCode(m: string): (r: Option<int>)
    ensures r.Some? ==> InCodeSpace(FingerprintAlive, r.value)
  {
    MessageCode(FingerprintAlive, m)
  }

  /** getStatusCodeForGatewayCanBePinged, status_codes.js lines 479-497, for a present message. */
  function GatewayCanBePingedCode(m: string): (r: Option<int>)
    ensures r.Some? ==> InCodeSpace(GatewayCanBePinged, r.value)
  {
    MessageCode(GatewayCanBePinged, m)
  }

  /** getStatusCodeForLanConnectivity, status_codes.js lines 505-514, for a present message. */
  function LanConnectivityCode(m: string): (r: Option<int>)
    ensures r.Some? ==> InCodeSpace(LanConnectivity, r.value)
  {
    MessageCode(LanConnectivity, m)
  }

  /** getStatusCodeForMemory, status_codes.js lines 521-538, for a present message. */
  function MemoryCode(m: string): (r: Option<int>)
    ensures r.Some? ==> InCodeSpace(Memory, r.value)
  {
    MessageCode(Memory, m)
  }

  /** getStatusCodeForNvmeSelfTest, status_codes.js lines 546-580, for a present message. */
  function NvmeSelfTestCode(m: string): (r: Option<int>)
    ensures r.Some? ==> InCodeSpace(NvmeSelfTest, r.value)
  {
    MessageCode(NvmeSelfTest, m)
  }

  /** getStatusCodeForNvmeWearLevel, status_codes.js lines 588-599, for a present message. */
  function NvmeWearLevelCode(m: string): (r: Option<int>)
    ensures r.Some? ==> InCodeSpace(NvmeWearLevel, r.value)
  {
    MessageCode(NvmeWearLevel, m)
  }

  /** getStatusCodeForPowerButton, status_codes.js lines 607-622, for a present
      message: the cases, then the timeout-range pattern. */
  function PowerButtonCode(m: string): (r: Option<int>)
    ensures r.Some? ==> InCodeSpace(PowerButton, r.value)
  {
    MessageCode(PowerButton, m)
  }

  /** getStatusCodeForSensitiveSensor, status_codes.js lines 643-654, for a present message. */
  function SensitiveSensorCode(m: string): (r: Option<int>)
    ensures r.Some? ==> InCodeSpace(SensitiveSensor, r.value)
  {
    MessageCode(SensitiveSensor, m)
  }

  /** getStatusCodeForSignalStrength, status_codes.js lines 662-671, for a present message. */
  function SignalStrengthCode(m: string): (r: Option<int>)
    ensures r.Some? ==> InCodeSpace(SignalStrength, r.value)
  {
    MessageCode(SignalStrength, m)
  }

  /** getStatusCodeForSmartctlCheck, status_codes.js lines 679-691, for a present message. */
  function SmartctlCheckCode(m: string): (r: Option<int>)
    ensures r.Some? ==> InCodeSpace(SmartctlCheck, r.value)
  {
    MessageCode(SmartctlCheck, m)
  }

  /** getStatusCodeForUfsLifeTime, status_codes.js lines 699-714, for a present message. */
  function UfsLifeTimeCode(m: string): (r: Option<int>)
    ensures r.Some? ==> InCodeSpace(UfsLifeTime, r.value)
  {
    MessageCode(UfsLifeTime, m)
  }

  /** The lookup of a kind over a present `status_message`: the code of the
      first case labelled with the message, else the exception code when the
      message has the kind's pattern, else nothing. The floating point
      accuracy and prime search functions have no case and no pattern and
      return nothing for any record (status_codes.js lines 466-471 and
      630-635); the audio driver's lookup does not read this field. */
  function MessageCode(kind: RoutineKind, m: string): (r: Option<int>)
    ensures r.Some? && r != Switch(Cases(kind), m) ==> r == Some(CodeRoutineException) && IsDynamicException(kind, m)
  {
    var exact := Switch(Cases(kind), m);
    if exact.Some? then exact
    else if IsDynamicException(kind, m) then Some(CodeRoutineException)
    else None
  }

  /** The per-kind lookups above, selected by kind. */
  lemma MessageCodeInCodeSpace(kind: RoutineKind, m: string)
    ensures MessageCode(kind, m).Some? ==> InCodeSpace(kind, MessageCode(kind, m).value)
  {
    match kind
    case AcPower => var _ := AcPowerCode(m);
    case BatteryCapacity => var _ := BatteryCapacityCode(m);
    case BatteryCharge => var _ := BatteryChargeCode(m);
    case BatteryDischarge => var _ := BatteryDischargeCode(m);
    case BatteryHealth => var _ := BatteryHealthCode(m);
    case BluetoothDiscovery => var _ := BluetoothDiscoveryCode(m);
    case BluetoothPairing => var _ := BluetoothPairingCode(m);
    case BluetoothPower => var _ := BluetoothPowerCode(m);
    case BluetoothScanning => var _ := BluetoothScanningCode(m);
    case CpuCache => var _ := CpuCacheCode(m);
    case CpuStress => var _ := CpuStressCode(m);
    case DiskRead => var _ := DiskReadCode(m);
    case DnsResolution => var _ := DnsResolutionCode(m);
    case DnsResolverPresent => var _ := DnsResolverPresentCode(m);
    case EmmcLifetime => var _ := EmmcLifetimeCode(m);
    case Fan => var _ := FanCode(m);
    case FingerprintAlive => var _ := FingerprintAliveCode(m);
    case GatewayCanBePinged => var _ := GatewayCanBePingedCode(m);
    case LanConnectivity => var _ := LanConnectivityCode(m);
    case Memory => var _ := MemoryCode(m);
    case NvmeSelfTest => var _ := NvmeSelfTestCode(m);
    case NvmeWearLevel => var _ := NvmeWearLevelCode(m);
    case PowerButton => var _ := PowerButtonCode(m);
    case SensitiveSensor => var _ := SensitiveSensorCode(m);
    case SignalStrength => var _ := SignalStrengthCode(m);
    case SmartctlCheck => var _ := SmartctlCheckCode(m);
    case UfsLifeTime => var _ := UfsLifeTimeCode(m);
    case AudioDriver | FloatingPointAccuracy | PrimeSearch =>
  }

  /** The audio driver's lookup: the parsed output first, then the two
      exception patterns, which test `statusMessage`. */
  function AudioDriverCode(output: Option<AudioOutput>, statusMessage: Option<string>): (r: Option<int>)
    ensures r.Some? ==> InCodeSpace(AudioDriver, r.value)
    ensures r.None? <==>
              (output.None? || (output.value.internalCardDetected && output.value.audioDevicesSucceedToOpen)) &&
              !(statusMessage.Some? &&
                (PrefixThenDigits(CrasInternalCardPrefix, statusMessage.value) ||
                 PrefixThenDigits(CrasNodeInfoPrefix, statusMessage.value)))
  {
    if output.Some? && !output.value.internalCardDetected then Some(0x0060001)
    else if output.Some? && !output.value.audioDevicesSucceedToOpen then Some(0x0060002)
    else if statusMessage.Some? &&
            (PrefixThenDigits(CrasInternalCardPrefix, statusMessage.value) ||
             PrefixThenDigits(CrasNodeInfoPrefix, statusMessage.value))
    then Some(CodeRoutineException)
    else None
  }

  /** What a "v2" kind does for a failed routine, whose backend reports no
      message: the code it returns and the message it writes. */
  datatype V2Failure = V2Failure(code: int, message: string)

  function V2FailureOf(kind: RoutineKind): (r: Option<V2Failure>)
    ensures r.Some? <==> kind in {CpuCache, CpuStress, Memory, Fan, UfsLifeTime}
    ensures r.Some? ==> r.value.code != CodeRoutineException && InCodeSpace(kind, r.value.code)
  {
    match kind
    case CpuCache => Some(V2Failure(0x0100001, "One or more subtests failed."))
    case CpuStress => Some(V2Failure(0x0110001, "One or more subtests failed."))
    case Memory => Some(V2Failure(0x0220001, "One or more subtests failed."))
    case Fan => Some(V2Failure(0x0170001, "One or more fans cannot be set to certain speed."))
    case UfsLifeTime => Some(V2Failure(0x02B0001, "Pre-EOL info is not normal."))
    case _ => None
  }

  /** True when the kind's lookup overwrites the message of `rs`. */
  predicate OverwritesMessage(kind: RoutineKind, rs: RoutineStatus) {
    rs.status == "failed" && V2FailureOf(kind).Some?
  }

  /** The value getStatusCodeFor<kind>(rs) returns. */
  function StatusCodeFor(kind: RoutineKind, rs: RoutineStatus): (r: Option<int>)
    ensures r.Some? ==> InCodeSpace(kind, r.value)
  {
    if kind == AudioDriver then AudioDriverCode(rs.output, rs.statusMessage)
    else if OverwritesMessage(kind, rs) then Some(V2FailureOf(kind).value.code)
    else if rs.status_message.None? then None
    else MessageCodeInCodeSpace(kind, rs.status_message.value); MessageCode(kind, rs.status_message.value)
  }

  /** The `status_message` of `rs` once getStatusCodeFor<kind>(rs) has run. */
  function MessageAfter(kind: RoutineKind, rs: RoutineStatus): (m: Option<string>)
    ensures m != rs.status_message ==> OverwritesMessage(kind, rs)
  {
    if OverwritesMessage(kind, rs) then Some(V2FailureOf(kind).value.message) else rs.status_message
  }

  /** The record fillStatusCode(getStatusCodeFor<kind>, rs) returns. Only
      `status_message` and `status_code` can change, the message only when a
      v2 kind overwrites it, the code only for a classified status. */
  function Fill(kind: RoutineKind, rs: RoutineStatus): (r: RoutineStatus)
    ensures r.(status_message := rs.status_message, status_code := rs.status_code) == rs
    ensures r.status_message != rs.status_message ==> OverwritesMessage(kind, rs)
    ensures r.status_code != rs.status_code ==> IsClassified(rs.status)
  {
    match rs.status
    case "passed" => rs.(status_code := Some(CodeRoutinePassed))
    case "failed" | "error" =>
      rs.(status_message := MessageAfter(kind, rs), status_code := StatusCodeFor(kind, rs))
    case _ => rs
  }

  // ---------------------------------------------------------------------
  // The record as the mutable object the source updates in place

  class StatusObject {
    var progressPercent: int
    var status: string
    var status_message: Option<string>
    var statusMessage: Option<string>
    var output: Option<AudioOutput>
    var userMessage: Option<string>
    var status_code: Option<int>

    constructor (v: RoutineStatus)
      ensures Value() == v
    {
      progressPercent, status := v.progressPercent, v.status;
      status_message, statusMessage := v.status_message, v.statusMessage;
      output, userMessage, status_code := v.output, v.userMessage, v.status_code;
    }

    /** The record the object currently holds. */
    function Value(): RoutineStatus
      reads this
    {
      RoutineStatus(progressPercent, status, status_message, statusMessage, output, userMessage, status_code)
    }
  }

  /** getStatusCodeFor<kind>: returns the kind's code for the record and, for
      a failed v2 routine, first overwrites its `status_message`. */
  method GetStatusCodeFor(kind: RoutineKind, rs: StatusObject) returns (code: Option<int>)
    modifies rs
    ensures code == StatusCodeFor(kind, old(rs.Value()))
    ensures rs.Value() == old(rs.Value()).(status_message := MessageAfter(kind, old(rs.Value())))
  {
    if kind == AudioDriver {
      code := AudioDriverCode(rs.output, rs.statusMessage);
      return;
    }
    if OverwritesMessage(kind, rs.Value()) {
      var v2 := V2FailureOf(kind).value;
      rs.status_message := Some(v2.message);
      code := Some(v2.code);
      return;
    }
    code := if rs.status_message.None? then None else MessageCode(kind, rs.status_message.value);
  }

  /** fillStatusCode: sets `status_code` in place and returns the same object. */
  method FillStatusCode(kind: RoutineKind, rs: StatusObject) returns (r: StatusObject)
    modifies rs
    ensures r == rs
    ensures rs.Value() == Fill(kind, old(rs.Value()))
  {
    r := rs;
    match rs.status
    case "passed" =>
      rs.status_code := Some(CodeRoutinePassed);
    case "failed" | "error" =>
      var code := GetStatusCodeFor(kind, rs);
      rs.status_code := code;
    case _ =>
  }

  // ---------------------------------------------------------------------
  // Properties of the classifier

  /** A passed routine gets code 1, whatever the kind and the message. */
  lemma PassedGetsCodeOne(kind: RoutineKind, rs: RoutineStatus)
    requires rs.status == "passed"
    ensures Fill(kind, rs) == rs.(status_code := Some(CodeRoutinePassed))
  {
  }

  /** A status other than passed, failed and error leaves the record as it was. */
  lemma UnclassifiedUntouched(kind: RoutineKind, rs: RoutineStatus)
    requires !IsClassified(rs.status)
    ensures Fill(kind, rs) == rs
  {
  }

  /** A failed or errored routine gets exactly the kind's code. */
  lemma FailedOrErrorGetsKindCode(kind: RoutineKind, rs: RoutineStatus)
    requires rs.status == "failed" || rs.status == "error"
    ensures Fill(kind, rs).status_code == StatusCodeFor(kind, rs)
    ensures Fill(kind, rs).status_message == MessageAfter(kind, rs)
  {
  }

  /** For a kind whose lookup is a message switch, a message that is a case
      label gets the code of the first case with that label. */
  lemma ExactMessageGetsCaseCode(kind: RoutineKind, rs: RoutineStatus, i: nat)
    requires kind != AudioDriver && !OverwritesMessage(kind, rs)
    requires rs.status == "failed" || rs.status == "error"
    requires i < |Cases(kind)| && rs.status_message == Some(Cases(kind)[i].message)
    requires forall j :: 0 <= j < i ==> Cases(kind)[j].message != Cases(kind)[i].message
    ensures Fill(kind, rs).status_code == Some(Cases(kind)[i].code)
  {
    CaseSelects(kind, i);
  }

  /** The switch selects the first case whose label is the message. */
  lemma CaseSelects(kind: RoutineKind, i: nat)
    requires i < |Cases(kind)|
    requires forall j :: 0 <= j < i ==> Cases(kind)[j].message != Cases(kind)[i].message
    ensures MessageCode(kind, Cases(kind)[i].message) == Some(Cases(kind)[i].code)
  {
    var t, m := Cases(kind), Cases(kind)[i].message;
    FirstLabelIsFirst(t, m);
    var k := FirstLabel(t, m).value;
    assert !(k < i) && !(i < k);
  }

  /** A message that is no case label and matches no pattern gets no code:
      the code is left undefined, never the exception code. */
  lemma UnmatchedMessageGetsNoCode(kind: RoutineKind, rs: RoutineStatus)
    requires kind != AudioDriver && !OverwritesMessage(kind, rs)
    requires rs.status == "failed" || rs.status == "error"
    requires rs.status_message.Some? ==>
               (forall i :: 0 <= i < |Cases(kind)| ==> Cases(kind)[i].message != rs.status_message.value) &&
               !IsDynamicException(kind, rs.status_message.value)
    ensures Fill(kind, rs).status_code == None
  {
    if rs.status_message.Some? {
      FirstLabelIsFirst(Cases(kind), rs.status_message.value);
    }
  }

  /** A failed v2 routine gets the kind's fixed code and fixed message,
      whatever message it came with. */
  lemma V2FailedIsFixed(kind: RoutineKind, rs: RoutineStatus, f: V2Failure)
    requires V2FailureOf(kind) == Some(f) && rs.status == "failed"
    ensures Fill(kind, rs).status_code == Some(f.code)
    ensures Fill(kind, rs).status_message == Some(f.message)
    ensures f.code != CodeRoutineException && InCodeSpace(kind, f.code)
  {
  }

  /** An errored v2 routine keeps its message, which is looked up in the table. */
  lemma V2ErrorKeepsMessage(kind: RoutineKind, rs: RoutineStatus)
    requires V2FailureOf(kind).Some? && rs.status == "error" && rs.status_message.Some?
    ensures Fill(kind, rs).status_message == rs.status_message
    ensures Fill(kind, rs).status_code == MessageCode(kind, rs.status_message.value)
  {
  }

  /** Audio driver: with an output payload, a missing internal card gives
      0x0060001 whatever the devices did, and a detected card whose devices
      failed to open gives 0x0060002. */
  lemma AudioDriverOutputCodes(rs: RoutineStatus)
    requires rs.status == "failed" || rs.status == "error"
    requires rs.output.Some?
    ensures !rs.output.value.internalCardDetected ==> Fill(AudioDriver, rs).status_code == Some(0x0060001)
    ensures rs.output.value.internalCardDetected && !rs.output.value.audioDevicesSucceedToOpen ==>
              Fill(AudioDriver, rs).status_code == Some(0x0060002)
  {
  }

  /** Audio driver: the classification never depends on `status_message`,
      only on the output payload and on `statusMessage`. */
  lemma AudioDriverIgnoresStatusMessage(rs: RoutineStatus, m: Option<string>)
    ensures StatusCodeFor(AudioDriver, rs.(status_message := m)) == StatusCodeFor(AudioDriver, rs)
    ensures StatusCodeFor(AudioDriver, rs) == Some(CodeRoutineException) <==>
              (rs.output.None? || (rs.output.value.internalCardDetected && rs.output.value.audioDevicesSucceedToOpen)) &&
              rs.statusMessage.Some? &&
              (PrefixThenDigits(CrasInternalCardPrefix, rs.statusMessage.value) ||
               PrefixThenDigits(CrasNodeInfoPrefix, rs.statusMessage.value))
  {
  }

  /** The example of a failed audio driver run whose card was detected but
      whose devices did not open. */
  lemma AudioDriverDeviceOpenExample()
    ensures Fill(AudioDriver, RoutineStatus(100, "failed", None, None, Some(AudioOutput(true, false)), None, None)).status_code
            == Some(0x0060002)
  {
  }

  /** Fan: an error reading a numbered thermal sensor is an exception. */
  lemma FanThermalSensorMessage(rs: RoutineStatus, idx: string)
    requires rs.status == "error" && IsDigits(idx)
    requires rs.status_message == Some(ThermalSensorPrefix + idx)
    ensures Fill(Fan, rs).status_code == Some(CodeRoutineException)
  {
    assert (ThermalSensorPrefix + idx)[|ThermalSensorPrefix|..] == idx;
  }

  /** Fan: the same prefix followed by anything but a digit run gets no code. */
  lemma FanThermalSensorBadSuffix(rs: RoutineStatus, suffix: string)
    requires rs.status == "error" && !IsDigits(suffix)
    requires rs.status_message == Some(ThermalSensorPrefix + suffix)
    ensures Fill(Fan, rs).status_code == None
  {
    var m := ThermalSensorPrefix + suffix;
    assert m[|ThermalSensorPrefix|..] == suffix;
    forall i | 0 <= i < |Cases(Fan)| ensures Cases(Fan)[i].message != m {
      assert |Cases(Fan)[i].message| < |ThermalSensorPrefix| <= |m|;
    }
    UnmatchedMessageGetsNoCode(Fan, rs);
  }

  /** Power button: a timeout-range message with two digit runs is an exception. */
  lemma PowerButtonTimeoutRange(rs: RoutineStatus, low: string, high: string)
    requires rs.status == "error" || rs.status == "failed"
    requires IsDigits(low) && IsDigits(high)
    requires rs.status_message == Some(TimeoutRangeText(low, high))
    ensures Fill(PowerButton, rs).status_code == Some(CodeRoutineException)
  {
    TimeoutRangeMatches(low, high);
  }

  /** The left-to-right scan accepts every message of the timeout-range shape. */
  lemma TimeoutRangeMatches(low: string, high: string)
    requires IsDigits(low) && IsDigits(high)
    ensures IsTimeoutRangeMessage(TimeoutRangeText(low, high))
  {
    var m := TimeoutRangeText(low, high);
    var body := m[|TimeoutRangePrefix|..|m| - 1];
    assert body == low + ", " + high;
    LeadingDigitsOfAppend(low, ", " + high);
    assert body[|low|..|low| + 2] == ", ";
    assert body[|low| + 2..] == high;
  }

  /** The left-to-right scan accepts only messages of the timeout-range shape. */
  lemma TimeoutRangeOnly(m: string) returns (low: string, high: string)
    requires IsTimeoutRangeMessage(m)
    ensures IsDigits(low) && IsDigits(high) && m == TimeoutRangeText(low, high)
  {
    var body := m[|TimeoutRangePrefix|..|m| - 1];
    var n := LeadingDigitCount(body);
    low, high := body[..n], body[n + 2..];
    assert body == low + ", " + high;
    assert m == TimeoutRangePrefix + body + "]";
  }

  /** Every code any kind returns lies in that kind's code space. */
  lemma CodeInKindSpace(kind: RoutineKind, rs: RoutineStatus)
    requires rs.status == "failed" || rs.status == "error"
    requires Fill(kind, rs).status_code.Some?
    ensures InCodeSpace(kind, Fill(kind, rs).status_code.value)
  {
  }

  /** Code spaces of different kinds share only the exception code. */
  lemma CodeSpacesDisjoint(k1: RoutineKind, k2: RoutineKind, c: int)
    requires k1 != k2 && InCodeSpace(k1, c) && InCodeSpace(k2, c)
    ensures c == CodeRoutineException
  {
    if c != CodeRoutineException {
      var b1, b2 := BlockOf(k1).value, BlockOf(k2).value;
      BlockPrefixIdentifiesKind(k1);
      BlockPrefixIdentifiesKind(k2);
    }
  }

  /** Block prefixes are positive, blocks hold fewer than 0x10000 codes, and
      the prefix determines the kind. */
  lemma BlockPrefixIdentifiesKind(kind: RoutineKind)
    requires BlockOf(kind).Some?
    ensures 0 < BlockOf(kind).value.prefix && BlockOf(kind).value.count < 0x10000
    ensures KindWithPrefix(BlockOf(kind).value.prefix) == Some(kind)
  {
  }

  const MainAdapterMessage: string :=
    "Bluetooth " + "routine " + "failed " + "to " + "get " + "main " + "adapter."

  /** The four Bluetooth switches share the main-adapter label, and each maps
      it into its own block, so one message gets four different codes. */
  lemma MainAdapterMessagePerKind()
    ensures BluetoothDiscoveryCode(MainAdapterMessage) == Some(0x00B0002)
    ensures BluetoothPairingCode(MainAdapterMessage) == Some(0x00C0004)
    ensures BluetoothPowerCode(MainAdapterMessage) == Some(0x00D0002)
    ensures BluetoothScanningCode(MainAdapterMessage) == Some(0x00E0003)
  {
    MainAdapterDiscovery();
    MainAdapterPairing();
    MainAdapterPower();
    MainAdapterScanning();
  }

  lemma MainAdapterDiscovery()
    ensures BluetoothDiscoveryCode(MainAdapterMessage) == Some(0x00B0002)
  {
    CaseSelects(BluetoothDiscovery, 1);
  }

  lemma MainAdapterPairing()
    ensures BluetoothPairingCode(MainAdapterMessage) == Some(0x00C0004)
  {
    CaseSelects(BluetoothPairing, 3);
  }

  lemma MainAdapterPower()
    ensures BluetoothPowerCode(MainAdapterMessage) == Some(0x00D0002)
  {
    CaseSelects(BluetoothPower, 1);
  }

  lemma MainAdapterScanning()
    ensures BluetoothScanningCode(MainAdapterMessage) == Some(0x00E0003)
  {
    CaseSelects(BluetoothScanning, 2);
  }

  const SmartctlFailedMessage: string :=
    "smartctl-check " + "status: " + "FAILED, " + "one " + "or " + "more " + "checks " + "have " + "failed."

  /** A failed smartctl check reporting failed checks gets its specific code. */
  lemma SmartctlCheckFailedExample(rs: RoutineStatus)
    requires rs.status == "failed" && rs.status_message == Some(SmartctlFailedMessage)
    ensures Fill(SmartctlCheck, rs).status_code == Some(0x02A0001)
  {
    ExactMessageGetsCaseCode(SmartctlCheck, rs, 0);
  }

  /** Floating point accuracy and prime search never get a code for a failed
      or errored routine. */
  lemma NoCodeForFloatingPointAndPrimeSearch(rs: RoutineStatus)
    requires rs.status == "failed" || rs.status == "error"
    ensures Fill(FloatingPointAccuracy, rs).status_code == None
    ensures Fill(PrimeSearch, rs).status_code == None
  {
    if rs.status_message.Some? {
      assert Switch(Cases(FloatingPointAccuracy), rs.status_message.value) == None;
      assert Switch(Cases(PrimeSearch), rs.status_message.value) == None;
    }
  }

  /** Filling twice gives the record filling once gives. */
  lemma FillIdempotent(kind: RoutineKind, rs: RoutineStatus)
    ensures Fill(kind, Fill(kind, rs)) == Fill(kind, rs)
  {
  }
}

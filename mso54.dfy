/** The driver for a Tektronix 5 Series mixed-signal oscilloscope (class `MSO54`): connection and
    discovery over the instrument bus, parsing of the instrument's replies, single-sequence
    acquisition with a bounded completion poll, waveform transfer set-up, and the scaling of a
    transferred curve into volts over a time axis. */
module Mso54 {
  import opened Wrappers
  import opened Text
  import opened Scaling
  import opened Visa

  /** The exceptions a driver call can end with. */
  datatype Error =
    | NoConnection          // NoConnectionError
    | WrongInstrument       // WrongInstrumentError
    | DataTransfer          // DataTransferError
    | VisaError             // VisaError: declared for callers to catch, never raised by the driver
    | Transport(fault: Fault)  // the bus's own exception, passed through unchanged
    | NoInstrument          // AttributeError: the call used `_inst` while it was still None
    | InvalidChannel        // ValueError('Invalid channel selected')
    | BadNumber             // ValueError from int() or float() on a reply
    | AcquisitionTimeout    // AssertionError of the completion poll

  /** A transferred waveform: the time axis, the samples in volts and the sample period. */
  datatype Waveform = Waveform(time: seq<real>, data: seq<real>, samplePeriod: real)

  /** The name an identity reply must contain, in any letter case. */
  const Name := "MSO"

  const ClearOnConnect := "*cls"
  const ClearStatusCommand := "*CLS"
  const StopAfterQuery := "ACQuire:STOPAfter?"
  const StopAfterSequence := "ACQuire:STOPAfter SEQuence"
  const DeviceEventEnable := "DESE 1"
  const EventStatusEnable := "*ESE 1"
  const ServiceRequestEnable := "*SRE 0"
  const AcquireOn := "ACQUIRE:STATE ON"
  const OperationComplete := "*OPC"
  const EsrQuery := "*ESR?"
  const RecordLengthQuery := "HORizontal:RECORDLength?"
  const AvailableQuery := "DATa:SOUrce:AVAILable?"
  const CurveQuery := "CURVe?"
  const YMultQuery := "WFMOutpre:YMUlt?"
  const YZeroQuery := "WFMOutpre:YZEro?"
  const XIncrQuery := "WFMOutpre:XINcr?"
  const XZeroQuery := "WFMOutpre:XZEro?"
  const PreTriggerQuery := "WFMOutpre:PT_Off?"

  /** The completion poll gives up once this many `*ESR?` readings were not 1. */
  const PollLimit: nat := 100

  /** `transfer_waveform` asks for signed little-endian integers of two bytes. */
  const TransferEncoding := "SRIbinary"
  const TransferByteWidth := 2

  /** The default arguments of the `set_transfer_*` methods. */
  const DefaultEncoding := "ASCII"
  const DefaultByteWidth := 1
  const DefaultStartSample := 1
  const DefaultEndSample := 62500000

  // ---------------------------------------------------------------------------------------------
  // Commands and replies

  /** An exception raised while talking to the instrument or reading its reply: by the bus,
      by a call on `_inst` while it is None, or by `int()` or `float()` on the reply. */
  predicate BusError(e: Error) {
    e.Transport? || e == NoInstrument || e == BadNumber
  }

  /** A command or reply with one argument: the header, a space, the argument. */
  function Command(header: string, argument: string): string {
    header + " " + argument
  }

  function SourceCommand(channel: string): string { Command("DATa:SOUrce", channel) }
  function EncodingCommand(encoding: string): string { Command("DATa:ENCdg", encoding) }
  function ByteWidthCommand(n: int): string { Command("WFMOutpre:BYT_Nr", IntToString(n)) }
  function StartCommand(n: int): string { Command("DATa:STARt", IntToString(n)) }
  function StopCommand(n: int): string { Command("DATa:STOP", IntToString(n)) }

  /** `NAME.lower() in reply.lower()`. */
  predicate IdentifiesAsMso(reply: string) {
    Contains(Lower(reply), Lower(Name))
  }

  /** The letters m, s, o, each in either case, start at index `i` of `reply`. */
  predicate MsoAt(reply: string, i: int) {
    && 0 <= i && i + 3 <= |reply|
    && (reply[i] == 'm' || reply[i] == 'M')
    && (reply[i + 1] == 's' || reply[i + 1] == 'S')
    && (reply[i + 2] == 'o' || reply[i + 2] == 'O')
  }

  /** An identity reply is accepted exactly when "mso" occurs in it, in any letter case. */
  lemma IdentifiesAsMsoIff(reply: string)
    ensures IdentifiesAsMso(reply) <==> exists i :: MsoAt(reply, i)
  {
    var low := Lower(reply);
    assert Lower(Name) == "mso";
    ContainsIff(low, "mso");
    forall i | OccursAt(low, "mso", i) ensures MsoAt(reply, i) {
      assert low[i..i + 3] == "mso";
      assert low[i] == 'm' && low[i + 1] == 's' && low[i + 2] == 'o';
    }
    forall i | MsoAt(reply, i) ensures OccursAt(low, "mso", i) {
      assert low[i..i + 3] == [low[i], low[i + 1], low[i + 2]];
    }
  }

  /** `int(reply.split(' ')[-1])`, as `get_record_length` reads a number. */
  function IntToken(reply: string): Option<int> {
    ParseInt(LastToken(reply))
  }

  /** `reply.strip().split(' ')[-1].split(',')`, as `get_available_channels` and
      `set_transfer_source` read the channel list. */
  function ChannelsOf(reply: string): seq<string> {
    Split(LastToken(Strip(reply)), ',')
  }

  /** There is at least one channel name; no name holds a comma or a blank; and the names joined
      by commas give back the last blank-separated token of the stripped reply. */
  lemma ChannelsOfShape(reply: string)
    ensures |ChannelsOf(reply)| >= 1
    ensures forall i :: 0 <= i < |ChannelsOf(reply)| ==> ',' !in ChannelsOf(reply)[i] && ' ' !in ChannelsOf(reply)[i]
    ensures Join(ChannelsOf(reply), ',') == LastToken(Strip(reply))
  {
    var token := LastToken(Strip(reply));
    LastTokenIsTail(Strip(reply));
    var channels := Split(token, ',');
    SplitShape(token, ',');
    forall i | 0 <= i < |channels| ensures ' ' !in channels[i] {
      JoinHolds(channels, ',', i);
    }
  }

  /** Every character of a word is a character of the joined string. */
  lemma {:induction false} JoinHolds(words: seq<string>, sep: char, i: nat)
    requires i < |words|
    ensures forall c :: c in words[i] ==> c in Join(words, sep)
    decreases |words|
  {
    if |words| > 1 {
      var rest := Join(words[1..], sep);
      assert Join(words, sep) == words[0] + [sep] + rest;
      if i > 0 {
        JoinHolds(words[1..], sep, i - 1);
      }
    }
  }

  /** The number in a command reads back: the argument `str(n)` is the last token and `int` of it
      is `n`. Replies of the form header, space, number (`:HORIZONTAL:RECORDLENGTH 10000`) read
      the same way. */
  lemma NumberReadsBack(header: string, n: int)
    ensures IntToken(Command(header, IntToString(n))) == Some(n)
  {
    IntToStringNoSpace(n);
    LastTokenAfterSpace(header, IntToString(n));
    ParseIntOfIntToString(n);
  }

  /** A channel listing `header ch1,ch2,...` reads back as the channels, in the instrument's
      order, when the header starts with a non-blank and no channel is empty or holds a blank or a
      comma. */
  lemma ChannelsOfListing(header: string, channels: seq<string>)
    requires |header| > 0 && !IsSpace(header[0])
    requires |channels| >= 1
    requires forall i :: 0 <= i < |channels| ==> |channels[i]| > 0 && NoSpace(channels[i]) && ',' !in channels[i]
    ensures ChannelsOf(Command(header, Join(channels, ','))) == channels
  {
    var joined := Join(channels, ',');
    JoinNoSpace(channels, ',');
    assert |joined| > 0 by {
      if |channels| > 1 {
        assert joined == channels[0] + [','] + Join(channels[1..], ',');
      }
    }
    var reply := Command(header, joined);
    assert reply[|reply| - 1] == joined[|joined| - 1];
    StripUnchanged(reply);
    assert ' ' !in joined by {
      assert forall k :: 0 <= k < |joined| ==> joined[k] != ' ';
    }
    LastTokenAfterSpace(header, joined);
    SplitOfJoin(channels, ',');
  }

  /** `acquire_single_sequence` rewrites the stop-after mode unless the reply, lowercased and
      stripped, is "sequence". */
  predicate NeedsStopAfter(mode: string) {
    Strip(Lower(mode)) != "sequence"
  }

  /** The bus raises a timeout when no reply is left for a query. */
  function NextReply(pending: seq<string>): Result<string, Error> {
    if pending == [] then Err(Transport(IoError)) else Ok(pending[0])
  }

  /** The scripted replies left after `n` queries. */
  function Rest(pending: seq<string>, n: nat): seq<string> {
    if n <= |pending| then pending[n..] else []
  }

  /** The replies left for a query once it has been asked (`asked`) or not. */
  function Consumed(pending: seq<string>, asked: bool): seq<string> {
    if asked then Rest(pending, 1) else pending
  }

  /** Taking `m` replies, then `n` more, takes `m + n`. */
  lemma RestRest(pending: seq<string>, m: nat, n: nat)
    ensures Rest(Rest(pending, m), n) == Rest(pending, m + n)
  {
  }

  /** What `int(query(q).split(' ')[-1])` gives with replies `pending` scripted for `q`. */
  function IntReply(pending: seq<string>): Result<int, Error> {
    if pending == [] then Err(Transport(IoError))
    else match IntToken(pending[0])
      case None => Err(BadNumber)
      case Some(n) => Ok(n)
  }

  /** What `float(query(q).split(' ')[-1])` gives, for a given `float`. */
  function RealReply(pending: seq<string>, toReal: string -> Option<real>): Result<real, Error> {
    if pending == [] then Err(Transport(IoError))
    else match toReal(LastToken(pending[0]))
      case None => Err(BadNumber)
      case Some(x) => Ok(x)
  }

  /** The channel list read from the first scripted reply. */
  function ChannelReply(pending: seq<string>): Result<seq<string>, Error> {
    if pending == [] then Err(Transport(IoError)) else Ok(ChannelsOf(pending[0]))
  }

  /** The `i`-th read of `int(query('*ESR?'))` among the scripted replies `esr`. */
  function StatusAt(esr: seq<string>, i: nat): Result<int, Error> {
    if i >= |esr| then Err(Transport(IoError))
    else match ParseInt(esr[i])
      case None => Err(BadNumber)
      case Some(v) => Ok(v)
  }

  // ---------------------------------------------------------------------------------------------
  // Discovery

  /** Discovery keeps a resource that opens, is on USB and names the instrument in its identity. */
  predicate Matches(r: Resource) {
    r.opens && r.kind == Usb && r.identity.Some? && IdentifiesAsMso(r.identity.value)
  }

  /** The first resource discovery keeps, in enumeration order. */
  function FirstMatch(rs: seq<Resource>): (k: Option<nat>)
    ensures k.Some? ==> k.value < |rs| && Matches(rs[k.value])
    ensures k.Some? ==> forall j :: 0 <= j < k.value ==> !Matches(rs[j])
    ensures k.None? ==> forall j :: 0 <= j < |rs| ==> !Matches(rs[j])
    decreases |rs|
  {
    if rs == [] then None
    else if Matches(rs[0]) then Some(0)
    else match FirstMatch(rs[1..])
      case None => None
      case Some(k) => Some(k + 1)
  }

  /** How many resources discovery tries: up to and including the match, or all of them. */
  function ScanLength(rs: seq<Resource>): (n: nat)
    ensures n <= |rs|
  {
    match FirstMatch(rs)
    case None => |rs|
    case Some(k) => k + 1
  }

  /** The resources among the first `k` that open, in order: one session each. */
  function OpenedDuring(rs: seq<Resource>, k: nat): seq<Resource>
    requires k <= |rs|
    decreases k
  {
    if k == 0 then [] else OpenedDuring(rs, k - 1) + (if rs[k - 1].opens then [rs[k - 1]] else [])
  }

  /** The session number resource `j` gets if it opens, when `base` sessions existed before. */
  function SessionOf(rs: seq<Resource>, j: nat, base: nat): nat
    requires j <= |rs|
  {
    base + |OpenedDuring(rs, j)|
  }

  /** What trying resource number `j` puts on the bus, with `s` the session it would get. */
  function Probe(r: Resource, j: nat, s: nat): seq<Event> {
    if !r.opens then []
    else if r.kind == Usb then [Opened(s, j), Asked(s, IdnQuery)]
    else [Opened(s, j), Closed(s)]
  }

  /** What trying the first `k` resources puts on the bus. */
  function ScanEvents(rs: seq<Resource>, k: nat, base: nat): seq<Event>
    requires k <= |rs|
    decreases k
  {
    if k == 0 then [] else ScanEvents(rs, k - 1, base) + Probe(rs[k - 1], k - 1, SessionOf(rs, k - 1, base))
  }

  /** The sessions discovery closes while trying the first `k` resources. */
  function ClosedDuring(rs: seq<Resource>, k: nat, base: nat): set<nat>
    requires k <= |rs|
    decreases k
  {
    if k == 0 then {}
    else ClosedDuring(rs, k - 1, base) + (if rs[k - 1].opens && rs[k - 1].kind != Usb then {SessionOf(rs, k - 1, base)} else {})
  }

  /** Session numbers follow the enumeration order: resource `j`, if it opens, is the session
      numbered `SessionOf(rs, j, base)`, and later resources get higher numbers. */
  lemma {:induction false} OpenedDuringAt(rs: seq<Resource>, k: nat, j: nat)
    requires j < k <= |rs| && rs[j].opens
    ensures |OpenedDuring(rs, j)| < |OpenedDuring(rs, k)|
    ensures OpenedDuring(rs, k)[|OpenedDuring(rs, j)|] == rs[j]
    decreases k
  {
    if k > j + 1 {
      OpenedDuringAt(rs, k - 1, j);
    }
  }

  /** Discovery opens resources in enumeration order and skips those that fail to open: every
      resource that opens is opened, on its own session, and nothing else is. */
  lemma {:induction false} ScanOpens(rs: seq<Resource>, k: nat, base: nat)
    requires k <= |rs|
    ensures forall j :: 0 <= j < k && rs[j].opens ==> Opened(SessionOf(rs, j, base), j) in ScanEvents(rs, k, base)
    ensures forall e :: e in ScanEvents(rs, k, base) && e.Opened? ==>
      e.resource < k && rs[e.resource].opens && e.session == SessionOf(rs, e.resource, base)
    decreases k
  {
    if k > 0 {
      ScanOpens(rs, k - 1, base);
      var before := ScanEvents(rs, k - 1, base);
      var probe := Probe(rs[k - 1], k - 1, SessionOf(rs, k - 1, base));
      assert ScanEvents(rs, k, base) == before + probe;
      forall j | 0 <= j < k && rs[j].opens
        ensures Opened(SessionOf(rs, j, base), j) in ScanEvents(rs, k, base)
      {
        if j == k - 1 {
          assert probe[0] == Opened(SessionOf(rs, j, base), j);
        } else {
          assert Opened(SessionOf(rs, j, base), j) in before;
        }
      }
    }
  }

  /** Discovery only closes sessions it opened itself. */
  lemma {:induction false} ClosedDuringBounds(rs: seq<Resource>, k: nat, base: nat)
    requires k <= |rs|
    ensures forall x :: x in ClosedDuring(rs, k, base) ==> base <= x < SessionOf(rs, k, base)
    decreases k
  {
    if k > 0 {
      ClosedDuringBounds(rs, k - 1, base);
    }
  }

  /** Discovery closes each resource it opened exactly when it is not on USB: a USB resource
      that does not identify as the instrument is dropped without being closed. */
  lemma {:induction false} ClosedDuringIff(rs: seq<Resource>, k: nat, base: nat, j: nat)
    requires j < k <= |rs| && rs[j].opens
    ensures SessionOf(rs, j, base) in ClosedDuring(rs, k, base) <==> rs[j].kind != Usb
    decreases k
  {
    if k == j + 1 {
      ClosedDuringBounds(rs, j, base);
    } else {
      ClosedDuringIff(rs, k - 1, base, j);
      OpenedDuringAt(rs, k - 1, j);
    }
  }

  // ---------------------------------------------------------------------------------------------
  // Acquisition

  /** Each scripted `*ESR?` reply as `int(...)` reads it. */
  function Readings(esr: seq<string>): seq<Result<int, Error>> {
    seq(|esr|, i requires 0 <= i < |esr| => StatusAt(esr, i))
  }

  /** A parsed `*ESR?` reply is a number, a timeout of the bus or a malformed number, never the
      poll's own assertion. */
  lemma ReadingsNeverTimeout(esr: seq<string>)
    ensures forall j :: 0 <= j < |Readings(esr)| ==> Readings(esr)[j] != Err(AcquisitionTimeout)
  {
  }

  /** The `i`-th read of the poll; past the script, the query times out. */
  function ReadAt(readings: seq<Result<int, Error>>, i: nat): Result<int, Error> {
    if i < |readings| then readings[i] else Err(Transport(IoError))
  }

  /** The next `*ESR?` read once `i` replies were used up is the `i`-th reading. */
  lemma StatusAfter(esr: seq<string>, i: nat)
    ensures StatusAt(Rest(esr, i), 0) == ReadAt(Readings(esr), i)
  {
  }

  /** The completion poll from its `i`-th `*ESR?` read on: the number of readings made in all, and
      how the poll ends. It stops at the first read of exactly 1; a read that raises ends it with
      that exception; after the hundredth read that is not 1, the assertion fails. */
  function Poll(readings: seq<Result<int, Error>>, i: nat): (p: (nat, Outcome<Error>))
    requires i < PollLimit
    ensures i < p.0 <= PollLimit
    decreases PollLimit - i
  {
    match ReadAt(readings, i)
    case Err(e) => (i + 1, Raised(e))
    case Ok(v) =>
      if v == 1 then (i + 1, Done)
      else if i + 1 < PollLimit then Poll(readings, i + 1)
      else (i + 1, Raised(AcquisitionTimeout))
  }

  /** A read that leaves the poll waiting: a well-formed number, other than 1. */
  predicate StillBusy(read: Result<int, Error>) {
    read.Ok? && read.value != 1
  }

  /** The poll finishes at the first read of exactly 1, if all readings before it are numbers and
      it comes within the limit. */
  lemma {:induction false} PollStopsAtFirstOne(readings: seq<Result<int, Error>>, i: nat, k: nat)
    requires i <= k < PollLimit && k < |readings| && readings[k] == Ok(1)
    requires forall j :: i <= j < k ==> StillBusy(readings[j])
    ensures Poll(readings, i) == (k + 1, Done)
    decreases k - i
  {
    if i < k {
      assert StillBusy(readings[i]);
      PollStopsAtFirstOne(readings, i + 1, k);
    }
  }

  /** The poll finishes only on a read of exactly 1, with every read before it a number. */
  lemma {:induction false} PollDoneOnlyOnOne(readings: seq<Result<int, Error>>, i: nat)
    requires i < PollLimit && Poll(readings, i).1 == Done
    ensures var k := Poll(readings, i).0 - 1;
      i <= k < |readings| && readings[k] == Ok(1) && forall j :: i <= j < k ==> StillBusy(readings[j])
    decreases PollLimit - i
  {
    if ReadAt(readings, i) != Ok(1) {
      PollDoneOnlyOnOne(readings, i + 1);
    }
  }

  /** The poll fails its assertion exactly when a hundred readings are numbers other than 1, and it
      then has made exactly a hundred readings. */
  lemma {:induction false} PollTimeoutIff(readings: seq<Result<int, Error>>, i: nat)
    requires i < PollLimit
    requires forall j :: 0 <= j < |readings| ==> readings[j] != Err(AcquisitionTimeout)
    ensures Poll(readings, i).1 == Raised(AcquisitionTimeout) <==>
      PollLimit <= |readings| && forall j :: i <= j < PollLimit ==> StillBusy(readings[j])
    ensures Poll(readings, i).1 == Raised(AcquisitionTimeout) ==> Poll(readings, i).0 == PollLimit
    decreases PollLimit - i
  {
    if i < |readings| && StillBusy(readings[i]) && i + 1 < PollLimit {
      PollTimeoutIff(readings, i + 1);
      assert (PollLimit <= |readings| && forall j :: i <= j < PollLimit ==> StillBusy(readings[j])) <==>
        (PollLimit <= |readings| && forall j :: i + 1 <= j < PollLimit ==> StillBusy(readings[j]));
    }
  }

  function Repeat(e: Event, n: nat): seq<Event> {
    seq(n, _ => e)
  }

  lemma RepeatSnoc(e: Event, n: nat)
    ensures Repeat(e, n) + [e] == Repeat(e, n + 1)
  {
  }

  /** The writes that arm the completion poll, in order. */
  function ArmEvents(s: nat): seq<Event> {
    [Wrote(s, DeviceEventEnable), Wrote(s, EventStatusEnable), Wrote(s, ServiceRequestEnable),
     Wrote(s, AcquireOn), Wrote(s, OperationComplete)]
  }

  /** What `acquire_single_sequence` puts on session `s` and how it ends, given the result of the
      stop-after query and the scripted `*ESR?` replies. */
  function Acquisition(s: nat, mode: Result<string, Error>, wait: bool, readings: seq<Result<int, Error>>): (seq<Event>, Outcome<Error>) {
    match mode
    case Err(e) => ([Asked(s, StopAfterQuery)], Raised(e))
    case Ok(m) =>
      var head := [Asked(s, StopAfterQuery)] + (if NeedsStopAfter(m) then [Wrote(s, StopAfterSequence)] else []);
      if !wait then (head + [Wrote(s, AcquireOn)], Done)
      else
        var p := Poll(readings, 0);
        (head + ArmEvents(s) + Repeat(Asked(s, EsrQuery), p.0), p.1)
  }

  /** The single-sequence mode is written exactly when the current mode does not read as
      "sequence". */
  lemma AcquisitionWritesStopAfterIff(s: nat, m: string, wait: bool, readings: seq<Result<int, Error>>)
    ensures Wrote(s, StopAfterSequence) in Acquisition(s, Ok(m), wait, readings).0 <==> NeedsStopAfter(m)
  {
    var events := Acquisition(s, Ok(m), wait, readings).0;
    var head := [Asked(s, StopAfterQuery)] + (if NeedsStopAfter(m) then [Wrote(s, StopAfterSequence)] else []);
    if !NeedsStopAfter(m) {
      var tail := if !wait then [Wrote(s, AcquireOn)] else ArmEvents(s) + Repeat(Asked(s, EsrQuery), Poll(readings, 0).0);
      assert events == head + tail;
      assert forall k :: 0 <= k < |tail| ==> tail[k] != Wrote(s, StopAfterSequence);
    } else {
      assert events[1] == Wrote(s, StopAfterSequence);
    }
  }

  /** With completion waited for, the poll is armed before the first `*ESR?` read, at least one
      and at most a hundred readings are made, and the acquisition ends as the poll does. */
  lemma AcquisitionPollsWithinLimit(s: nat, m: string, readings: seq<Result<int, Error>>)
    ensures var a := Acquisition(s, Ok(m), true, readings);
      exists head: seq<Event>, n: nat ::
        && a.0 == head + ArmEvents(s) + Repeat(Asked(s, EsrQuery), n)
        && 1 <= n <= PollLimit && a.1 == Poll(readings, 0).1
        && Asked(s, EsrQuery) !in head
  {
    var head := [Asked(s, StopAfterQuery)] + (if NeedsStopAfter(m) then [Wrote(s, StopAfterSequence)] else []);
    assert forall k :: 0 <= k < |head| ==> head[k] != Asked(s, EsrQuery);
    var n := Poll(readings, 0).0;
    assert Acquisition(s, Ok(m), true, readings).0 == head + ArmEvents(s) + Repeat(Asked(s, EsrQuery), n);
  }

  // ---------------------------------------------------------------------------------------------
  // Transfer

  /** `set_transfer_source` accepts the channel: the listing could be read and names it. */
  predicate ChannelAccepted(available: Result<seq<string>, Error>, channel: string) {
    available.Ok? && channel in available.value
  }

  /** How `set_transfer_source` ends, given what reading the channel listing gave. */
  function SourceOutcome(available: Result<seq<string>, Error>, channel: string): Outcome<Error> {
    match available
    case Err(e) => Raised(e)
    case Ok(channels) => if channel in channels then Done else Raised(InvalidChannel)
  }

  /** What `set_transfer_source` puts on the bus: the listing query, then the write if accepted. */
  function SourceEvents(s: nat, available: Result<seq<string>, Error>, channel: string): seq<Event> {
    [Asked(s, AvailableQuery)] + (if ChannelAccepted(available, channel) then [Wrote(s, SourceCommand(channel))] else [])
  }

  /** The encoding, byte width and start sample writes of `setup_waveform_transfer`. */
  function FormatEvents(s: nat, encoding: string, nByte: int, startSample: int): seq<Event> {
    [Wrote(s, EncodingCommand(encoding)), Wrote(s, ByteWidthCommand(nByte)), Wrote(s, StartCommand(startSample))]
  }

  /** How the stop sample step ends: a given end sample is written as it is, otherwise the record
      length is read first (`length` is what that read gives). */
  function StopOutcome(length: Result<int, Error>, endSample: Option<int>): Outcome<Error> {
    match endSample
    case Some(_) => Done
    case None =>
      match length
      case Err(e) => Raised(e)
      case Ok(_) => Done
  }

  function StopEvents(s: nat, length: Result<int, Error>, endSample: Option<int>): seq<Event> {
    match endSample
    case Some(stop) => [Wrote(s, StopCommand(stop))]
    case None =>
      [Asked(s, RecordLengthQuery)] +
        match length
        case Err(_) => []
        case Ok(n) => [Wrote(s, StopCommand(n))]
  }

  /** How `setup_waveform_transfer` ends: the channel check first, then the stop sample. */
  function SetupOutcome(available: Result<seq<string>, Error>, length: Result<int, Error>, channel: string,
                        endSample: Option<int>): Outcome<Error>
  {
    match SourceOutcome(available, channel)
    case Raised(e) => Raised(e)
    case Done => StopOutcome(length, endSample)
  }

  /** Everything `setup_waveform_transfer` puts on the bus; nothing after a refused channel. */
  function SetupEvents(s: nat, available: Result<seq<string>, Error>, length: Result<int, Error>, channel: string,
                       encoding: string, nByte: int, startSample: int, endSample: Option<int>): seq<Event>
  {
    SourceEvents(s, available, channel)
      + (if ChannelAccepted(available, channel) then FormatEvents(s, encoding, nByte, startSample) + StopEvents(s, length, endSample) else [])
  }

  /** The curve fetch of `transfer_waveform`: clear the status register, read the record length,
      then ask for that many points (nothing is fetched if the length cannot be read). */
  function CurveEvents(s: nat, length: Result<int, Error>): seq<Event> {
    [Wrote(s, ClearStatusCommand), Asked(s, RecordLengthQuery)]
      + (if length.Ok? then [Fetched(s, CurveQuery, length.value)] else [])
  }

  /** The five preamble queries, in the order `transfer_waveform` makes them. */
  function PreambleEvents(s: nat): seq<Event> {
    [Asked(s, YMultQuery), Asked(s, YZeroQuery), Asked(s, XIncrQuery), Asked(s, XZeroQuery),
     Asked(s, PreTriggerQuery)]
  }

  /** The vertical preamble queries made: the multiplier, and the zero if the multiplier was read. */
  function VerticalEvents(s: nat, second: bool): seq<Event> {
    [Asked(s, YMultQuery)] + (if second then [Asked(s, YZeroQuery)] else [])
  }

  /** The horizontal preamble queries made: the sample interval, then each of the others only if
      the one before it was read. */
  function HorizontalEvents(s: nat, second: bool, third: bool): seq<Event> {
    [Asked(s, XIncrQuery)] + (if second then [Asked(s, XZeroQuery)] else []) + (if third then [Asked(s, PreTriggerQuery)] else [])
  }

  /** The first `made` of the five preamble queries, as reading them puts them on the bus. */
  function PreambleLog(s: nat, made: nat): seq<Event> {
    VerticalEvents(s, 1 < made) + (if 2 < made then HorizontalEvents(s, 3 < made, 4 < made) else [])
  }

  /** The vertical scale read from the replies scripted for its two queries, with `toReal`
      standing for `float`: the multiplier, then the zero, stopping at the first that raises. */
  function VerticalReply(yMult: seq<string>, yZero: seq<string>, toReal: string -> Option<real>): Result<(real, real), Error> {
    match RealReply(yMult, toReal)
    case Err(e) => Err(e)
    case Ok(a) =>
      match RealReply(yZero, toReal)
      case Err(e) => Err(e)
      case Ok(b) => Ok((a, b))
  }

  /** The horizontal scale read the same way: sample interval, first sample time, pre-trigger
      offset. */
  function HorizontalReply(xIncr: seq<string>, xZero: seq<string>, preTrigger: seq<string>,
                           toReal: string -> Option<real>): Result<(real, real, int), Error> {
    match RealReply(xIncr, toReal)
    case Err(e) => Err(e)
    case Ok(a) =>
      match RealReply(xZero, toReal)
      case Err(e) => Err(e)
      case Ok(b) =>
        match IntReply(preTrigger)
        case Err(e) => Err(e)
        case Ok(c) => Ok((a, b, c))
  }

  /** The whole preamble: the vertical scale first, then the horizontal one. */
  function CalibrationReply(yMult: seq<string>, yZero: seq<string>, xIncr: seq<string>, xZero: seq<string>,
                            preTrigger: seq<string>, toReal: string -> Option<real>): Result<Calibration, Error>
  {
    match VerticalReply(yMult, yZero, toReal)
    case Err(e) => Err(e)
    case Ok(v) =>
      match HorizontalReply(xIncr, xZero, preTrigger, toReal)
      case Err(e) => Err(e)
      case Ok(h) => Ok(Calibration(v.0, v.1, h.0, h.1, h.2))
  }

  /** How many of the five preamble queries are made: reading stops after the first reply
      `float` cannot read; the pre-trigger offset comes last, so at most five. */
  function PreambleReads(yMult: seq<string>, yZero: seq<string>, xIncr: seq<string>, xZero: seq<string>,
                         toReal: string -> Option<real>): (n: nat)
    ensures 1 <= n <= 5
  {
    if RealReply(yMult, toReal).Err? then 1
    else if RealReply(yZero, toReal).Err? then 2
    else if RealReply(xIncr, toReal).Err? then 3
    else if RealReply(xZero, toReal).Err? then 4
    else 5
  }

  /** Regrouping a log: the methods append their events one group at a time, while the
      specification functions build the whole tail first; this joins the two readings. */
  lemma Associative(a: seq<Event>, b: seq<Event>, c: seq<Event>)
    ensures a + b + c == a + (b + c)
  {
  }

  /** One of the queries that read the preamble. */
  predicate PreambleQuery(q: string) {
    q == YMultQuery || q == YZeroQuery || q == XIncrQuery || q == XZeroQuery || q == PreTriggerQuery
  }

  /** The queries `transfer_waveform` can make. */
  predicate TransferQuery(q: string) {
    q == AvailableQuery || q == RecordLengthQuery || PreambleQuery(q) || q == EsrQuery
  }

  /** The end of `transfer_waveform`: the samples scaled to volts, the time axis and the sample
      period, unless the status register flags the transfer as corrupted. */
  function Assemble(raw: seq<int>, cal: Calibration, esr: int): Result<Waveform, Error> {
    if TransferCorrupted(esr) then Err(DataTransfer)
    else Ok(Waveform(TimeAxis(cal, |raw|), Scale(raw, cal.yMult, cal.yZero), cal.xIncr))
  }

  /** A transfer is refused exactly when the status value flags it, and with `DataTransferError`;
      otherwise each sample is scaled to volts, the time axis starts at `t_start` and steps by the
      sample interval, and the sample period is that interval. */
  lemma AssembleShape(raw: seq<int>, cal: Calibration, esr: int)
    ensures var r := Assemble(raw, cal, esr);
      && (r.Err? <==> TransferCorrupted(esr))
      && (r.Err? ==> r.error == DataTransfer)
      && (r.Ok? ==>
        && |r.value.data| == |raw| && |r.value.time| == |raw| && r.value.samplePeriod == cal.xIncr
        && (forall i :: 0 <= i < |raw| ==> r.value.data[i] == raw[i] as real * cal.yMult + cal.yZero)
        && (forall i :: 0 <= i < |raw| ==> r.value.time[i] == TimeStart(cal) + i as real * cal.xIncr))
  {
    TimeAxisEvenlySpaced(cal, |raw|);
  }

  /** A transfer is rejected exactly when the status value ANDed with 0b00111100 is not zero. */
  lemma AssembleRejectsIffMasked(raw: seq<int>, cal: Calibration, esr: nat)
    ensures Assemble(raw, cal, esr).Err? <==> BitAnd(esr, TransferErrorMask) != 0
  {
    TransferErrorBitsIsMask(esr);
  }

  /** The query texts differ from one another, so a reply queued for one is never read by
      another; proved once here from their lengths and a distinguishing character. */
  lemma QueriesDistinct()
    ensures AvailableQuery != RecordLengthQuery && AvailableQuery != EsrQuery && RecordLengthQuery != EsrQuery
    ensures AvailableQuery != YMultQuery && AvailableQuery != YZeroQuery && AvailableQuery != XIncrQuery
    ensures AvailableQuery != XZeroQuery && AvailableQuery != PreTriggerQuery
    ensures RecordLengthQuery != YMultQuery && RecordLengthQuery != YZeroQuery && RecordLengthQuery != XIncrQuery
    ensures RecordLengthQuery != XZeroQuery && RecordLengthQuery != PreTriggerQuery
    ensures EsrQuery != YMultQuery && EsrQuery != YZeroQuery && EsrQuery != XIncrQuery
    ensures EsrQuery != XZeroQuery && EsrQuery != PreTriggerQuery
    ensures YMultQuery != YZeroQuery && YMultQuery != XIncrQuery && YMultQuery != XZeroQuery
    ensures YZeroQuery != XIncrQuery && YZeroQuery != XZeroQuery && XIncrQuery != XZeroQuery
    ensures PreTriggerQuery != YMultQuery && PreTriggerQuery != YZeroQuery
    ensures PreTriggerQuery != XIncrQuery && PreTriggerQuery != XZeroQuery
    ensures StopAfterQuery != EsrQuery
    ensures forall q :: PreambleQuery(q) ==> q != EsrQuery && q != RecordLengthQuery && q != AvailableQuery
  {
    assert |YMultQuery| == |YZeroQuery| == |XIncrQuery| == |XZeroQuery| == 16;
    assert |PreTriggerQuery| == 17 && |EsrQuery| == 5 && |RecordLengthQuery| == 24 && |AvailableQuery| == 22;
    assert |StopAfterQuery| == 18;
    assert YMultQuery[11] != YZeroQuery[11];
    assert YMultQuery[10] != XIncrQuery[10] && YMultQuery[10] != XZeroQuery[10];
    assert YZeroQuery[10] != XIncrQuery[10] && YZeroQuery[10] != XZeroQuery[10];
    assert XIncrQuery[11] != XZeroQuery[11];
  }

  /** What a waveform transfer reads, as the driver parses it: the channel listing, the record
      length read by the set-up and the one read before the curve, the curves queued, the preamble
      and the status value. */
  datatype Script = Script(available: Result<seq<string>, Error>, stop: Result<int, Error>, length: Result<int, Error>,
                           curves: seq<seq<int>>, calibration: Result<Calibration, Error>, status: Result<int, Error>)

  /** The script the scripted replies give: each query reads the next reply queued for it, and
      the record length is read twice. */
  function ParseScript(available: seq<string>, lengths: seq<string>, curves: seq<seq<int>>,
                       yMult: seq<string>, yZero: seq<string>, xIncr: seq<string>, xZero: seq<string>,
                       preTrigger: seq<string>, esr: seq<string>, toReal: string -> Option<real>): Script
  {
    Script(ChannelReply(available), IntReply(lengths), IntReply(Rest(lengths, 1)), curves,
           CalibrationReply(yMult, yZero, xIncr, xZero, preTrigger, toReal), StatusAt(esr, 0))
  }

  /** Every read that fails ends with an exception of the bus or of `int`/`float`. */
  predicate BusScript(sc: Script) {
    && (sc.available.Err? ==> BusError(sc.available.error))
    && (sc.stop.Err? ==> BusError(sc.stop.error))
    && (sc.length.Err? ==> BusError(sc.length.error))
    && (sc.calibration.Err? ==> BusError(sc.calibration.error))
    && (sc.status.Err? ==> BusError(sc.status.error))
  }

  /** Parsing replies never invents a driver exception. */
  lemma ParsedScriptIsBus(available: seq<string>, lengths: seq<string>, curves: seq<seq<int>>,
                          yMult: seq<string>, yZero: seq<string>, xIncr: seq<string>, xZero: seq<string>,
                          preTrigger: seq<string>, esr: seq<string>, toReal: string -> Option<real>)
    ensures BusScript(ParseScript(available, lengths, curves, yMult, yZero, xIncr, xZero, preTrigger, esr, toReal))
  {
    IntReplyIsBus(lengths);
    IntReplyIsBus(Rest(lengths, 1));
    CalibrationReplyIsBus(yMult, yZero, xIncr, xZero, preTrigger, toReal);
  }

  lemma IntReplyIsBus(pending: seq<string>)
    ensures IntReply(pending).Err? ==> BusError(IntReply(pending).error)
  {
  }

  lemma CalibrationReplyIsBus(yMult: seq<string>, yZero: seq<string>, xIncr: seq<string>, xZero: seq<string>,
                              preTrigger: seq<string>, toReal: string -> Option<real>)
    ensures var c := CalibrationReply(yMult, yZero, xIncr, xZero, preTrigger, toReal);
      c.Err? ==> BusError(c.error)
  {
    var v := VerticalReply(yMult, yZero, toReal);
    var h := HorizontalReply(xIncr, xZero, preTrigger, toReal);
    assert v.Err? ==> BusError(v.error);
    IntReplyIsBus(preTrigger);
    assert h.Err? ==> BusError(h.error);
  }

  /** How `transfer_waveform` ends once it is set up, given the record length it reads, the
      curves queued, the preamble and the status value: the first of them that fails, otherwise
      the scaled waveform or the corrupted-transfer error. */
  function FetchResult(length: Result<int, Error>, curves: seq<seq<int>>, cal: Result<Calibration, Error>,
                       status: Result<int, Error>): Result<Waveform, Error>
  {
    match length
    case Err(e) => Err(e)
    case Ok(_) =>
      if curves == [] then Err(Transport(IoError)) else ScaleResult(curves[0], cal, status)
  }

  /** How `transfer_waveform` ends once the curve `raw` arrived: the preamble or the status read
      that fails, otherwise the scaled waveform or the corrupted-transfer error. */
  function ScaleResult(raw: seq<int>, cal: Result<Calibration, Error>, status: Result<int, Error>): Result<Waveform, Error> {
    match cal
    case Err(e) => Err(e)
    case Ok(c) =>
      match status
      case Err(e) => Err(e)
      case Ok(v) => Assemble(raw, c, v)
  }

  /** Every read after the set-up succeeds. */
  predicate FetchScripted(length: Result<int, Error>, curves: seq<seq<int>>, cal: Result<Calibration, Error>,
                          status: Result<int, Error>)
  {
    length.Ok? && curves != [] && cal.Ok? && status.Ok?
  }

  /** What the transfer after its set-up puts on the bus when every read succeeds. */
  function FetchEvents(s: nat, length: Result<int, Error>): seq<Event> {
    CurveEvents(s, length) + PreambleEvents(s) + [Asked(s, EsrQuery)]
  }

  /** What the transfer after its set-up puts on the bus in general: the curve fetch; once a
      curve arrived (`fetched`), the first `made` preamble queries; once the whole preamble was
      read (`calibrated`), the status query. */
  function FetchLog(s: nat, length: Result<int, Error>, fetched: bool, made: nat, calibrated: bool): seq<Event> {
    CurveEvents(s, length)
      + if fetched then PreambleLog(s, made) + (if calibrated then [Asked(s, EsrQuery)] else []) else []
  }

  /** When every read succeeds the general log is the one of `FetchEvents`. */
  lemma FetchLogScripted(s: nat, length: Result<int, Error>)
    ensures FetchLog(s, length, true, 5, true) == FetchEvents(s, length)
  {
    assert PreambleLog(s, 5) == PreambleEvents(s);
  }

  /** How `transfer_waveform(channel)` ends on a script: the set-up with the transfer's encoding
      and byte width and no end sample, then the fetch. */
  function Transfer(sc: Script, channel: string): Result<Waveform, Error> {
    match SetupOutcome(sc.available, sc.stop, channel, None)
    case Raised(e) => Err(e)
    case Done => FetchResult(sc.length, sc.curves, sc.calibration, sc.status)
  }

  /** The script lets `transfer_waveform` run to its final check. */
  predicate Scripted(sc: Script, channel: string) {
    SetupOutcome(sc.available, sc.stop, channel, None) == Done && FetchScripted(sc.length, sc.curves, sc.calibration, sc.status)
  }

  /** Everything `transfer_waveform` puts on the bus when it runs to its final check. */
  function TransferEvents(sc: Script, s: nat, channel: string): seq<Event> {
    SetupEvents(s, sc.available, sc.stop, channel, TransferEncoding, TransferByteWidth, DefaultStartSample, None)
      + FetchEvents(s, sc.length)
  }

  /** `transfer_waveform` runs to its final check exactly when the channel is accepted and every
      read succeeds; only then can it return a waveform or raise `DataTransferError`. */
  lemma TransferReachesCheckIff(sc: Script, channel: string)
    requires BusScript(sc)
    ensures var r := Transfer(sc, channel);
      r.Ok? || r == Err(DataTransfer) <==> Scripted(sc, channel)
  {
  }

  /** At the final check the transfer is refused exactly when the status value flags it;
      otherwise it returns the first queued curve scaled to volts, a time axis that starts at
      `t_start` and steps by the sample interval, and that interval. */
  lemma TransferScales(sc: Script, channel: string)
    requires Scripted(sc, channel)
    ensures var r := Transfer(sc, channel);
      var raw, cal, esr := sc.curves[0], sc.calibration.value, sc.status.value;
      && (r.Err? <==> TransferCorrupted(esr))
      && (r.Err? ==> r.error == DataTransfer)
      && (r.Ok? ==>
        && |r.value.data| == |raw| && |r.value.time| == |raw| && r.value.samplePeriod == cal.xIncr
        && (forall i :: 0 <= i < |raw| ==> r.value.data[i] == raw[i] as real * cal.yMult + cal.yZero)
        && (forall i :: 0 <= i < |raw| ==> r.value.time[i] == TimeStart(cal) + i as real * cal.xIncr))
  {
    AssembleShape(sc.curves[0], sc.calibration.value, sc.status.value);
  }

  /** A channel the instrument does not list is refused with `ValueError` before anything is
      written, and only such a channel is; `VisaError` is never raised. */
  lemma TransferErrors(sc: Script, channel: string)
    requires BusScript(sc)
    ensures Transfer(sc, channel) != Err(VisaError)
    ensures Transfer(sc, channel) == Err(InvalidChannel) <==> sc.available.Ok? && channel !in sc.available.value
  {
  }

  /** A transfer that runs to its final check sends, in order: the channel listing query, the
      source, encoding, byte width and start writes, the record length query and the stop write
      with that length, the status clear, a second record length query and the curve query for
      that many points, the five preamble queries and the status query. */
  lemma TransferEventsInOrder(sc: Script, s: nat, channel: string)
    requires Scripted(sc, channel)
    ensures TransferEvents(sc, s, channel) ==
      [Asked(s, AvailableQuery), Wrote(s, SourceCommand(channel)), Wrote(s, EncodingCommand(TransferEncoding)),
       Wrote(s, ByteWidthCommand(TransferByteWidth)), Wrote(s, StartCommand(DefaultStartSample)),
       Asked(s, RecordLengthQuery), Wrote(s, StopCommand(sc.stop.value)),
       Wrote(s, ClearStatusCommand), Asked(s, RecordLengthQuery), Fetched(s, CurveQuery, sc.length.value),
       Asked(s, YMultQuery), Asked(s, YZeroQuery), Asked(s, XIncrQuery), Asked(s, XZeroQuery),
       Asked(s, PreTriggerQuery), Asked(s, EsrQuery)]
  {
  }

  /** The part of the bus a waveform transfer reads: the replies queued for each of its queries
      and the curves queued. */
  datatype Queues = Queues(available: seq<string>, lengths: seq<string>, yMult: seq<string>, yZero: seq<string>,
                           xIncr: seq<string>, xZero: seq<string>, preTrigger: seq<string>, esr: seq<string>,
                           curves: seq<seq<int>>)

  /** The script these queues give a transfer. */
  function ScriptOf(qs: Queues, toReal: string -> Option<real>): Script {
    ParseScript(qs.available, qs.lengths, qs.curves, qs.yMult, qs.yZero, qs.xIncr, qs.xZero, qs.preTrigger, qs.esr, toReal)
  }

  /** The preamble as these queues give it. */
  function CalibrationOf(qs: Queues, toReal: string -> Option<real>): Result<Calibration, Error> {
    CalibrationReply(qs.yMult, qs.yZero, qs.xIncr, qs.xZero, qs.preTrigger, toReal)
  }

  /** How many preamble queries are made on these queues. */
  function PreambleReadsOf(qs: Queues, toReal: string -> Option<real>): nat {
    PreambleReads(qs.yMult, qs.yZero, qs.xIncr, qs.xZero, toReal)
  }

  /** The queues after `setup_waveform_transfer(channel, ..., end_sample)` on an open session: one
      channel listing is read, and the record length once the channel is accepted and no end
      sample is given. */
  function AfterSetup(qs: Queues, channel: string, endSample: Option<int>): Queues {
    var accepted := ChannelAccepted(ChannelReply(qs.available), channel);
    qs.(available := Rest(qs.available, 1), lengths := Rest(qs.lengths, if accepted && endSample.None? then 1 else 0))
  }

  /** Whether the fetch gets a curve, and whether it then reads the whole preamble. */
  predicate Fetches(qs: Queues) {
    IntReply(qs.lengths).Ok? && qs.curves != []
  }

  predicate Calibrates(qs: Queues, toReal: string -> Option<real>) {
    Fetches(qs) && CalibrationOf(qs, toReal).Ok?
  }

  /** The queues after the fetch of `transfer_waveform` on an open session: one record length and,
      once that was read, one curve; once the curve arrived, one reply per preamble query made;
      once the whole preamble was read, one status value. */
  function AfterFetch(qs: Queues, toReal: string -> Option<real>): Queues {
    var fetched := Fetches(qs);
    var n := PreambleReadsOf(qs, toReal);
    Queues(qs.available, Rest(qs.lengths, 1),
           Consumed(qs.yMult, fetched), Consumed(qs.yZero, fetched && 1 < n), Consumed(qs.xIncr, fetched && 2 < n),
           Consumed(qs.xZero, fetched && 3 < n), Consumed(qs.preTrigger, fetched && 4 < n),
           Consumed(qs.esr, Calibrates(qs, toReal)), if fetched then qs.curves[1..] else qs.curves)
  }

  /** How the fetch on these queues ends. */
  function FetchOutcome(qs: Queues, toReal: string -> Option<real>): Result<Waveform, Error> {
    FetchResult(IntReply(qs.lengths), qs.curves, CalibrationOf(qs, toReal), StatusAt(qs.esr, 0))
  }

  /** What the fetch on these queues puts on the bus. */
  function FetchLogOf(qs: Queues, s: nat, toReal: string -> Option<real>): seq<Event> {
    FetchLog(s, IntReply(qs.lengths), Fetches(qs), PreambleReadsOf(qs, toReal), Calibrates(qs, toReal))
  }

  /** The queues after `transfer_waveform(channel)` on an open session, on every path: one channel
      listing; one record length for the set-up once the channel is accepted and one more for the
      fetch once the set-up succeeded; the curve, the preamble replies and the status value the
      fetch reads. */
  function AfterTransfer(qs: Queues, channel: string, toReal: string -> Option<real>): Queues {
    var sc := ScriptOf(qs, toReal);
    var accepted := ChannelAccepted(sc.available, channel);
    var setUp := SetupOutcome(sc.available, sc.stop, channel, None) == Done;
    var fetched := setUp && sc.length.Ok? && sc.curves != [];
    var n := PreambleReadsOf(qs, toReal);
    Queues(Rest(qs.available, 1), Rest(qs.lengths, (if accepted then 1 else 0) + (if setUp then 1 else 0)),
           Consumed(qs.yMult, fetched), Consumed(qs.yZero, fetched && 1 < n), Consumed(qs.xIncr, fetched && 2 < n),
           Consumed(qs.xZero, fetched && 3 < n), Consumed(qs.preTrigger, fetched && 4 < n),
           Consumed(qs.esr, fetched && sc.calibration.Ok?), if fetched then qs.curves[1..] else qs.curves)
  }

  /** What `transfer_waveform(channel)` on session `s` puts on the bus, on every path: the set-up
      and, once set up, the curve fetch and as many preamble and status queries as were made. */
  function TransferLog(qs: Queues, s: nat, channel: string, toReal: string -> Option<real>): seq<Event> {
    var sc := ScriptOf(qs, toReal);
    var setUp := SetupOutcome(sc.available, sc.stop, channel, None) == Done;
    var fetched := setUp && sc.length.Ok? && sc.curves != [];
    SetupEvents(s, sc.available, sc.stop, channel, TransferEncoding, TransferByteWidth, DefaultStartSample, None)
      + (if setUp then FetchLog(s, sc.length, fetched, PreambleReadsOf(qs, toReal), fetched && sc.calibration.Ok?) else [])
  }

  /** The whole transfer is its set-up followed, once that succeeded, by the fetch on the queues
      the set-up left: same result, same log, same queues left. */
  lemma TransferComposes(qs: Queues, s: nat, channel: string, toReal: string -> Option<real>)
    ensures var sc := ScriptOf(qs, toReal);
      var mid := AfterSetup(qs, channel, None);
      var setup := SetupOutcome(ChannelReply(qs.available), IntReply(qs.lengths), channel, None);
      var events := SetupEvents(s, ChannelReply(qs.available), IntReply(qs.lengths), channel, TransferEncoding,
        TransferByteWidth, DefaultStartSample, None);
      && (setup.Raised? ==>
        && Transfer(sc, channel) == Err(setup.error)
        && TransferLog(qs, s, channel, toReal) == events
        && AfterTransfer(qs, channel, toReal) == mid)
      && (setup == Done ==>
        && Transfer(sc, channel) == FetchOutcome(mid, toReal)
        && TransferLog(qs, s, channel, toReal) == events + FetchLogOf(mid, s, toReal)
        && AfterTransfer(qs, channel, toReal) == AfterFetch(mid, toReal))
  {
    var sc := ScriptOf(qs, toReal);
    var mid := AfterSetup(qs, channel, None);
    if SetupOutcome(sc.available, sc.stop, channel, None) == Done {
      assert ChannelAccepted(sc.available, channel);
      assert mid.lengths == Rest(qs.lengths, 1);
      RestRest(qs.lengths, 1, 1);
    }
  }

  // ---------------------------------------------------------------------------------------------
  // The driver

  class MSO54 {
    const manager: ResourceManager
    /** The fixed address to connect to, or None to search the bus. */
    const address: Option<string>
    /** `_inst`: the session in use, or None before the first connection. */
    var inst: Option<nat>
    /** How often `connect` has been called. */
    ghost var connectCalls: nat

    constructor (manager: ResourceManager, address: Option<string> := None)
      ensures this.manager == manager && this.address == address
      ensures inst == None && connectCalls == 0
    {
      this.manager := manager;
      this.address := address;
      inst := None;
      connectCalls := 0;
    }

    /** `_inst` holds a session that is still open. */
    predicate Ready()
      reads this`inst, manager`sessions, manager`closed
    {
      inst.Some? && manager.IsOpen(inst.value)
    }

    /** What a call on `_inst` raises when it cannot reach the instrument. */
    function NotReady(): Error
      requires !Ready()
      reads this`inst, manager`sessions, manager`closed
    {
      if inst.None? then NoInstrument else Transport(InvalidSession)
    }

    /** `*IDN?` on `_inst` would be answered. */
    predicate Alive()
      reads this`inst, manager`sessions, manager`closed, manager`lost
    {
      Ready() && inst.value !in manager.lost && manager.sessions[inst.value].identity.Some?
    }

    /** The preamble as the transfer would read it now. */
    function CalibrationNow(toReal: string -> Option<real>): Result<Calibration, Error>
      reads manager`replies
    {
      CalibrationReply(manager.Pending(YMultQuery), manager.Pending(YZeroQuery), manager.Pending(XIncrQuery),
                       manager.Pending(XZeroQuery), manager.Pending(PreTriggerQuery), toReal)
    }

    /** How many preamble queries the transfer would make now. */
    function PreambleReadsNow(toReal: string -> Option<real>): (n: nat)
      reads manager`replies
      ensures 1 <= n <= 5
    {
      PreambleReads(manager.Pending(YMultQuery), manager.Pending(YZeroQuery), manager.Pending(XIncrQuery),
                    manager.Pending(XZeroQuery), toReal)
    }

    /** The replies and curves queued now for the queries of a waveform transfer. */
    function QueuesNow(): Queues
      reads manager`replies, manager`curves
    {
      Queues(manager.Pending(AvailableQuery), manager.Pending(RecordLengthQuery), manager.Pending(YMultQuery),
             manager.Pending(YZeroQuery), manager.Pending(XIncrQuery), manager.Pending(XZeroQuery),
             manager.Pending(PreTriggerQuery), manager.Pending(EsrQuery), manager.curves)
    }

    /** The waveform transfer the replies queued now script, with `toReal` standing for `float`. */
    function ScriptNow(toReal: string -> Option<real>): Script
      reads manager`replies, manager`curves
    {
      ScriptOf(QueuesNow(), toReal)
    }

    /** The bus after `transfer_waveform(channel)` on an open session, on every path: the log
        holds the set-up and, once set up, the curve fetch and as many preamble and status
        queries as were made; each query made used up one reply; nothing else changed. */
    twostate predicate Transferred(channel: string, toReal: string -> Option<real>)
      requires Ready()
      reads this`inst, manager`sessions, manager`closed, manager`replies, manager`curves, manager`log
    {
      && manager.log == old(manager.log) + TransferLog(old(QueuesNow()), inst.value, channel, toReal)
      && QueuesNow() == AfterTransfer(old(QueuesNow()), channel, toReal)
      && (forall q :: !TransferQuery(q) ==> manager.Pending(q) == old(manager.Pending(q)))
    }

    /** The effect of `_search_instrument`: the first `ScanLength` resources are tried in order,
        and `_inst` becomes the session of the match, or is left as it was. */
    twostate predicate Searched(new r: Outcome<Error>)
      reads this`inst, manager`resources, manager`replies, manager`sessions, manager`closed, manager`log
    {
      var rs := old(manager.resources);
      var base := old(|manager.sessions|);
      var n := ScanLength(rs);
      && manager.resources == rs
      && manager.replies == old(manager.replies)
      && manager.sessions == old(manager.sessions) + OpenedDuring(rs, n)
      && manager.closed == old(manager.closed) + ClosedDuring(rs, n, base)
      && manager.log == old(manager.log) + ScanEvents(rs, n, base)
      && (match FirstMatch(rs)
          case None => r == Raised(NoConnection) && inst == old(inst)
          case Some(k) => r == Done && inst == Some(SessionOf(rs, k, base)))
    }

    /** The effect of `connect` with a fixed address. */
    twostate predicate OpenedDirectly(new r: Outcome<Error>)
      requires address.Some?
      reads this`inst, manager`resources, manager`replies, manager`sessions, manager`closed, manager`log
    {
      var rs := old(manager.resources);
      var s := old(|manager.sessions|);
      var target := FirstWithAddress(rs, address.value);
      && manager.resources == rs
      && manager.replies == old(manager.replies)
      && if target.None? || !rs[target.value].opens then
           && r == Raised(NoConnection) && inst == old(inst)
           && manager.sessions == old(manager.sessions) && manager.closed == old(manager.closed)
           && manager.log == old(manager.log)
         else
           var k := target.value;
           var asked := old(manager.log) + [Opened(s, k), Wrote(s, ClearOnConnect), Asked(s, IdnQuery)];
           && inst == Some(s)
           && manager.sessions == old(manager.sessions) + [rs[k]]
           && match rs[k].identity
              case None => r == Raised(Transport(IoError)) && manager.closed == old(manager.closed) && manager.log == asked
              case Some(id) =>
                if IdentifiesAsMso(id) then r == Done && manager.closed == old(manager.closed) && manager.log == asked
                else r == Raised(WrongInstrument) && manager.closed == old(manager.closed) + {s} && manager.log == asked + [Closed(s)]
    }

    /** `connect`: search the bus, or open the fixed address, clear the status register and
        check the identity. */
    method Connect() returns (r: Outcome<Error>)
      requires manager.Valid()
      modifies this`inst, this`connectCalls, manager`sessions, manager`closed, manager`replies, manager`log
      ensures manager.Valid()
      ensures connectCalls == old(connectCalls) + 1
      ensures manager.replies == old(manager.replies)
      ensures address.None? ==> Searched(r)
      ensures address.Some? ==> OpenedDirectly(r)
    {
      connectCalls := connectCalls + 1;
      if address.None? {
        r := SearchInstrument();
        return;
      }
      var reached := manager.OpenAddress(address.value);
      if reached.None? {
        return Raised(NoConnection);
      }
      inst := reached;
      var s := reached.value;
      var _ := manager.Write(s, ClearOnConnect);
      var identity := manager.Query(s, IdnQuery);
      if identity.Err? {
        return Raised(Transport(identity.error));
      }
      if !IdentifiesAsMso(identity.value) {
        Disconnect();
        return Raised(WrongInstrument);
      }
      r := Done;
    }

    /** One pass of the discovery loop over resource `i`: open it, then keep it if it is on USB
        and identifies as the instrument, close it if it is not on USB, or drop it. Stated as the
        step from the state after `i` tries to the state after `i + 1`, from a bus that had
        `sessions0`, `closed0` and `log0` before the first try. */
    method TryCandidate(i: nat, ghost sessions0: seq<Resource>, ghost closed0: set<nat>, ghost log0: seq<Event>)
      returns (candidate: Option<nat>)
      requires manager.Valid() && i < |manager.resources|
      requires manager.sessions == sessions0 + OpenedDuring(manager.resources, i)
      requires manager.closed == closed0 + ClosedDuring(manager.resources, i, |sessions0|)
      requires manager.log == log0 + ScanEvents(manager.resources, i, |sessions0|)
      modifies manager`sessions, manager`closed, manager`replies, manager`log
      ensures manager.Valid()
      ensures manager.replies == old(manager.replies)
      ensures var rs := manager.resources; var base := |sessions0|;
        && candidate == (if Matches(rs[i]) then Some(SessionOf(rs, i, base)) else None)
        && manager.sessions == sessions0 + OpenedDuring(rs, i + 1)
        && manager.closed == closed0 + ClosedDuring(rs, i + 1, base)
        && manager.log == log0 + ScanEvents(rs, i + 1, base)
    {
      ghost var rs := manager.resources;
      ghost var s := |manager.sessions|;
      assert s == SessionOf(rs, i, |sessions0|);
      candidate := manager.OpenResource(i);
      if candidate.None? {
        return;
      }
      var session := candidate.value;
      if manager.sessions[session].kind == Usb {
        var identity := manager.Query(session, IdnQuery);
        if !(identity.Ok? && IdentifiesAsMso(identity.value)) {
          candidate := None;
        }
      } else {
        manager.Close(session);
        candidate := None;
      }
      assert manager.sessions == sessions0 + OpenedDuring(rs, i) + [rs[i]];
      assert manager.log == log0 + ScanEvents(rs, i, |sessions0|) + Probe(rs[i], i, s);
    }

    /** `_search_instrument`. */
    method SearchInstrument() returns (r: Outcome<Error>)
      requires manager.Valid()
      modifies this`inst, manager`sessions, manager`closed, manager`replies, manager`log
      ensures manager.Valid()
      ensures Searched(r)
    {
      var instruments := manager.resources;
      ghost var sessions0, closed0, log0 := manager.sessions, manager.closed, manager.log;
      ghost var found := 0;
      var candidate: Option<nat> := None;
      for i := 0 to |instruments|
        invariant manager.resources == instruments && manager.replies == old(manager.replies)
        invariant inst == old(inst) && manager.Valid()
        invariant candidate == None
        invariant forall j :: 0 <= j < i ==> !Matches(instruments[j])
        invariant manager.sessions == sessions0 + OpenedDuring(instruments, i)
        invariant manager.closed == closed0 + ClosedDuring(instruments, i, |sessions0|)
        invariant manager.log == log0 + ScanEvents(instruments, i, |sessions0|)
      {
        candidate := TryCandidate(i, sessions0, closed0, log0);
        if candidate.Some? {
          found := i;
          break;
        }
      }
      if candidate.None? {
        assert FirstMatch(instruments) == None;
        assert ScanLength(instruments) == |instruments|;
        return Raised(NoConnection);
      }
      assert FirstMatch(instruments) == Some(found);
      assert ScanLength(instruments) == found + 1;
      inst := candidate;
      r := Done;
    }

    /** `disconnect`: closes `_inst` if there is one; `_inst` itself is kept. */
    method Disconnect()
      modifies manager`closed, manager`log
      ensures inst.Some? && old(manager.IsOpen(inst.value)) ==>
        manager.closed == old(manager.closed) + {inst.value} && manager.log == old(manager.log) + [Closed(inst.value)]
      ensures !(inst.Some? && old(manager.IsOpen(inst.value))) ==>
        manager.closed == old(manager.closed) && manager.log == old(manager.log)
    {
      if inst.Some? {
        manager.Close(inst.value);
      }
    }

    /** `is_connected`: False without a session; otherwise whether `*IDN?` is answered. A closed
        session raises: that error is not one `is_connected` catches. */
    method IsConnected() returns (r: Result<bool, Error>)
      modifies manager`replies, manager`log
      ensures manager.replies == old(manager.replies)
      ensures inst.None? ==> r == Ok(false) && manager.log == old(manager.log)
      ensures inst.Some? && !Ready() ==> r == Err(Transport(InvalidSession)) && manager.log == old(manager.log)
      ensures Ready() ==> r == Ok(Alive()) && manager.log == old(manager.log) + [Asked(inst.value, IdnQuery)]
    {
      if inst.None? {
        return Ok(false);
      }
      var identity := manager.Query(inst.value, IdnQuery);
      if identity.Err? && identity.error == InvalidSession {
        return Err(Transport(InvalidSession));
      }
      r := Ok(identity.Ok?);
    }

    /** `self._inst.write(command)`. */
    method Send(command: string) returns (r: Outcome<Error>)
      modifies manager`log
      ensures r.Raised? ==> BusError(r.error)
      ensures Ready() ==> r == Done && manager.log == old(manager.log) + [Wrote(inst.value, command)]
      ensures !Ready() ==> r == Raised(NotReady()) && manager.log == old(manager.log)
    {
      if inst.None? {
        return Raised(NoInstrument);
      }
      var w := manager.Write(inst.value, command);
      if w.Raised? {
        return Raised(Transport(w.error));
      }
      r := Done;
    }

    /** `self._inst.query(q)`, for any query but `*IDN?`. */
    method Ask(q: string) returns (r: Result<string, Error>)
      requires q != IdnQuery
      modifies manager`replies, manager`log
      ensures r.Err? ==> BusError(r.error)
      ensures Ready() ==> r == NextReply(old(manager.Pending(q))) && manager.log == old(manager.log) + [Asked(inst.value, q)]
      ensures !Ready() ==> r == Err(NotReady()) && manager.log == old(manager.log)
      ensures manager.Pending(q) == if Ready() then Rest(old(manager.Pending(q)), 1) else old(manager.Pending(q))
      ensures forall other :: other != q ==> manager.Pending(other) == old(manager.Pending(other))
    {
      if inst.None? {
        return Err(NoInstrument);
      }
      var a := manager.Query(inst.value, q);
      if a.Err? {
        return Err(Transport(a.error));
      }
      r := Ok(a.value);
    }

    /** `int(self._inst.query(q).split(' ')[-1])`. */
    method AskInt(q: string) returns (r: Result<int, Error>)
      requires q != IdnQuery
      modifies manager`replies, manager`log
      ensures r.Err? ==> BusError(r.error)
      ensures Ready() ==> r == IntReply(old(manager.Pending(q))) && manager.log == old(manager.log) + [Asked(inst.value, q)]
      ensures !Ready() ==> r == Err(NotReady()) && manager.log == old(manager.log)
      ensures manager.Pending(q) == if Ready() then Rest(old(manager.Pending(q)), 1) else old(manager.Pending(q))
      ensures forall other :: other != q ==> manager.Pending(other) == old(manager.Pending(other))
    {
      var reply := Ask(q);
      if reply.Err? {
        return Err(reply.error);
      }
      var n := IntToken(reply.value);
      if n.None? {
        return Err(BadNumber);
      }
      r := Ok(n.value);
    }

    /** `float(self._inst.query(q).split(' ')[-1])`, with `toReal` standing for `float`. */
    method AskReal(q: string, toReal: string -> Option<real>) returns (r: Result<real, Error>)
      requires q != IdnQuery
      modifies manager`replies, manager`log
      ensures r.Err? ==> BusError(r.error)
      ensures Ready() ==> r == RealReply(old(manager.Pending(q)), toReal) && manager.log == old(manager.log) + [Asked(inst.value, q)]
      ensures !Ready() ==> r == Err(NotReady()) && manager.log == old(manager.log)
      ensures manager.Pending(q) == if Ready() then Rest(old(manager.Pending(q)), 1) else old(manager.Pending(q))
      ensures forall other :: other != q ==> manager.Pending(other) == old(manager.Pending(other))
    {
      var reply := Ask(q);
      if reply.Err? {
        return Err(reply.error);
      }
      var x := toReal(LastToken(reply.value));
      if x.None? {
        return Err(BadNumber);
      }
      r := Ok(x.value);
    }

    /** `int(self._inst.query('*ESR?'))`. */
    method ReadEventStatus() returns (r: Result<int, Error>)
      modifies manager`replies, manager`log
      ensures r.Err? ==> BusError(r.error)
      ensures Ready() ==> r == StatusAt(old(manager.Pending(EsrQuery)), 0) && manager.log == old(manager.log) + [Asked(inst.value, EsrQuery)]
      ensures !Ready() ==> r == Err(NotReady()) && manager.log == old(manager.log)
      ensures manager.Pending(EsrQuery) == if Ready() then Rest(old(manager.Pending(EsrQuery)), 1) else old(manager.Pending(EsrQuery))
      ensures forall other :: other != EsrQuery ==> manager.Pending(other) == old(manager.Pending(other))
    {
      var reply := Ask(EsrQuery);
      if reply.Err? {
        return Err(reply.error);
      }
      var v := ParseInt(reply.value);
      if v.None? {
        return Err(BadNumber);
      }
      r := Ok(v.value);
    }

    /** `query_binary_values('CURVe?', data_points=points)`: the next curve the bus delivers. */
    method AskCurve(points: int) returns (r: Result<seq<int>, Error>)
      modifies manager`curves, manager`log
      ensures r.Err? ==> BusError(r.error)
      ensures Ready() && old(manager.curves) != [] ==>
        r == Ok(old(manager.curves)[0]) && manager.log == old(manager.log) + [Fetched(inst.value, CurveQuery, points)]
      ensures Ready() && old(manager.curves) == [] ==>
        r == Err(Transport(IoError)) && manager.log == old(manager.log) + [Fetched(inst.value, CurveQuery, points)]
      ensures !Ready() ==> r == Err(NotReady()) && manager.log == old(manager.log)
      ensures manager.curves == if Ready() && old(manager.curves) != [] then old(manager.curves)[1..] else old(manager.curves)
    {
      if inst.None? {
        return Err(NoInstrument);
      }
      var c := manager.QueryBinary(inst.value, CurveQuery, points);
      if c.Err? {
        return Err(Transport(c.error));
      }
      r := Ok(c.value);
    }

    /** `clear_SESR_EventQueue_StatusByteReg`. */
    method ClearStatusRegisters() returns (r: Outcome<Error>)
      modifies manager`log
      ensures Ready() ==> r == Done && manager.log == old(manager.log) + [Wrote(inst.value, ClearStatusCommand)]
      ensures !Ready() ==> r == Raised(NotReady()) && manager.log == old(manager.log)
    {
      r := Send(ClearStatusCommand);
    }

    /** `acquire_single_sequence(wait_for_completion)`. */
    method AcquireSingleSequence(waitForCompletion: bool := false) returns (r: Outcome<Error>)
      modifies manager`replies, manager`log
      ensures Ready() ==>
        var a := Acquisition(inst.value, NextReply(old(manager.Pending(StopAfterQuery))), waitForCompletion, Readings(old(manager.Pending(EsrQuery))));
        r == a.1 && manager.log == old(manager.log) + a.0
      ensures !Ready() ==> r == Raised(NotReady()) && manager.log == old(manager.log)
      ensures forall q :: q != StopAfterQuery && q != EsrQuery ==> manager.Pending(q) == old(manager.Pending(q))
      ensures manager.Pending(StopAfterQuery) == Consumed(old(manager.Pending(StopAfterQuery)), Ready())
      ensures manager.Pending(EsrQuery) ==
        if Ready() && old(manager.Pending(StopAfterQuery)) != [] && waitForCompletion
        then Rest(old(manager.Pending(EsrQuery)), Poll(Readings(old(manager.Pending(EsrQuery))), 0).0)
        else old(manager.Pending(EsrQuery))
    {
      var mode := Ask(StopAfterQuery);
      if mode.Err? {
        return Raised(mode.error);
      }
      ghost var s := inst.value;
      ghost var head := [Asked(s, StopAfterQuery)] + (if NeedsStopAfter(mode.value) then [Wrote(s, StopAfterSequence)] else []);
      if NeedsStopAfter(mode.value) {
        var _ := Send(StopAfterSequence);
      }
      assert manager.log == old(manager.log) + head;
      if !waitForCompletion {
        var _ := Send(AcquireOn);
        Associative(old(manager.log), head, [Wrote(s, AcquireOn)]);
        return Done;
      }
      r := ArmAndAwait();
      Associative(old(manager.log), head, ArmEvents(s));
      Associative(old(manager.log), head + ArmEvents(s), Repeat(Asked(s, EsrQuery), Poll(Readings(old(manager.Pending(EsrQuery))), 0).0));
    }

    /** The waiting branch of `acquire_single_sequence`: arm the operation-complete event, start
        the acquisition, then poll. */
    method ArmAndAwait() returns (r: Outcome<Error>)
      requires Ready()
      modifies manager`replies, manager`log
      ensures var p := Poll(Readings(old(manager.Pending(EsrQuery))), 0);
        r == p.1 && manager.log == old(manager.log) + ArmEvents(inst.value) + Repeat(Asked(inst.value, EsrQuery), p.0)
          && manager.Pending(EsrQuery) == Rest(old(manager.Pending(EsrQuery)), p.0)
      ensures forall q :: q != EsrQuery ==> manager.Pending(q) == old(manager.Pending(q))
    {
      var _ := Send(DeviceEventEnable);
      var _ := Send(EventStatusEnable);
      var _ := Send(ServiceRequestEnable);
      var _ := Send(AcquireOn);
      var _ := Send(OperationComplete);
      ghost var armed := manager.log;
      assert armed == old(manager.log) + ArmEvents(inst.value);
      r := AwaitCompletion();
    }

    /** The completion poll of `acquire_single_sequence`: read `*ESR?` until it reads exactly 1,
        at most a hundred times. */
    method AwaitCompletion() returns (r: Outcome<Error>)
      requires Ready()
      modifies manager`replies, manager`log
      ensures var p := Poll(Readings(old(manager.Pending(EsrQuery))), 0);
        r == p.1 && manager.log == old(manager.log) + Repeat(Asked(inst.value, EsrQuery), p.0)
          && manager.Pending(EsrQuery) == Rest(old(manager.Pending(EsrQuery)), p.0)
      ensures forall q :: q != EsrQuery ==> manager.Pending(q) == old(manager.Pending(q))
    {
      ghost var esr := manager.Pending(EsrQuery);
      ghost var readings := Readings(esr);
      ghost var asked := Asked(inst.value, EsrQuery);
      var i := 0;
      var status := ReadEventStatus();
      StatusAfter(esr, 0);
      while status != Ok(1)
        invariant i < PollLimit
        invariant Poll(readings, 0) == Poll(readings, i)
        invariant status == ReadAt(readings, i)
        invariant manager.Pending(EsrQuery) == Rest(esr, i + 1)
        invariant manager.log == old(manager.log) + Repeat(asked, i + 1)
        invariant forall q :: q != EsrQuery ==> manager.Pending(q) == old(manager.Pending(q))
        decreases PollLimit - i
      {
        if status.Err? {
          return Raised(status.error);
        }
        i := i + 1;
        if i >= PollLimit {
          return Raised(AcquisitionTimeout);
        }
        status := ReadEventStatus();
        StatusAfter(esr, i);
        RestRest(esr, i, 1);
        RepeatSnoc(asked, i);
      }
      r := Done;
    }

    /** `get_record_length`. */
    method GetRecordLength() returns (r: Result<int, Error>)
      modifies manager`replies, manager`log
      ensures r.Err? ==> BusError(r.error)
      ensures Ready() ==> r == IntReply(old(manager.Pending(RecordLengthQuery))) && manager.log == old(manager.log) + [Asked(inst.value, RecordLengthQuery)]
      ensures !Ready() ==> r == Err(NotReady()) && manager.log == old(manager.log)
      ensures manager.Pending(RecordLengthQuery) == if Ready() then Rest(old(manager.Pending(RecordLengthQuery)), 1) else old(manager.Pending(RecordLengthQuery))
      ensures forall q :: q != RecordLengthQuery ==> manager.Pending(q) == old(manager.Pending(q))
    {
      r := AskInt(RecordLengthQuery);
    }

    /** `get_available_channels`. */
    method GetAvailableChannels() returns (r: Result<seq<string>, Error>)
      modifies manager`replies, manager`log
      ensures r.Err? ==> BusError(r.error)
      ensures Ready() ==> r == ChannelReply(old(manager.Pending(AvailableQuery))) && manager.log == old(manager.log) + [Asked(inst.value, AvailableQuery)]
      ensures !Ready() ==> r == Err(NotReady()) && manager.log == old(manager.log)
      ensures manager.Pending(AvailableQuery) == Consumed(old(manager.Pending(AvailableQuery)), Ready())
      ensures forall q :: q != AvailableQuery ==> manager.Pending(q) == old(manager.Pending(q))
    {
      var reply := Ask(AvailableQuery);
      if reply.Err? {
        return Err(reply.error);
      }
      r := Ok(ChannelsOf(reply.value));
    }

    /** `set_transfer_source(channel)`: the channel is checked against the available ones before
        anything is written. */
    method SetTransferSource(channel: string) returns (r: Outcome<Error>)
      modifies manager`replies, manager`log
      ensures r.Raised? ==> BusError(r.error) || r.error == InvalidChannel
      ensures Ready() ==> r == SourceOutcome(ChannelReply(old(manager.Pending(AvailableQuery))), channel)
      ensures Ready() ==> manager.log == old(manager.log) + SourceEvents(inst.value, ChannelReply(old(manager.Pending(AvailableQuery))), channel)
      ensures !Ready() ==> r == Raised(NotReady()) && manager.log == old(manager.log)
      ensures manager.Pending(AvailableQuery) == Consumed(old(manager.Pending(AvailableQuery)), Ready())
      ensures forall q :: q != AvailableQuery ==> manager.Pending(q) == old(manager.Pending(q))
      ensures manager.Pending(RecordLengthQuery) == old(manager.Pending(RecordLengthQuery))
    {
      var channels := GetAvailableChannels();
      if channels.Err? {
        return Raised(channels.error);
      }
      if channel !in channels.value {
        return Raised(InvalidChannel);
      }
      r := Send(SourceCommand(channel));
    }

    /** `set_transfer_encoding(encoding)`. */
    method SetTransferEncoding(encoding: string := DefaultEncoding) returns (r: Outcome<Error>)
      modifies manager`log
      ensures Ready() ==> r == Done && manager.log == old(manager.log) + [Wrote(inst.value, EncodingCommand(encoding))]
      ensures !Ready() ==> r == Raised(NotReady()) && manager.log == old(manager.log)
    {
      r := Send(EncodingCommand(encoding));
    }

    /** `set_transfer_n_byte(num_of_bytes)`. */
    method SetTransferNByte(numOfBytes: int := DefaultByteWidth) returns (r: Outcome<Error>)
      modifies manager`log
      ensures Ready() ==> r == Done && manager.log == old(manager.log) + [Wrote(inst.value, ByteWidthCommand(numOfBytes))]
      ensures !Ready() ==> r == Raised(NotReady()) && manager.log == old(manager.log)
    {
      r := Send(ByteWidthCommand(numOfBytes));
    }

    /** `set_transfer_start_sample(start_sample)`. */
    method SetTransferStartSample(startSample: int := DefaultStartSample) returns (r: Outcome<Error>)
      modifies manager`log
      ensures Ready() ==> r == Done && manager.log == old(manager.log) + [Wrote(inst.value, StartCommand(startSample))]
      ensures !Ready() ==> r == Raised(NotReady()) && manager.log == old(manager.log)
    {
      r := Send(StartCommand(startSample));
    }

    /** `set_transfer_end_sample(stop_sample)`. */
    method SetTransferEndSample(stopSample: int := DefaultEndSample) returns (r: Outcome<Error>)
      modifies manager`log
      ensures Ready() ==> r == Done && manager.log == old(manager.log) + [Wrote(inst.value, StopCommand(stopSample))]
      ensures !Ready() ==> r == Raised(NotReady()) && manager.log == old(manager.log)
    {
      r := Send(StopCommand(stopSample));
    }

    /** `setup_waveform_transfer`: source (after the channel check), encoding, byte width, start
        and stop, in that order; without an end sample the stop is the record length. */
    method SetupWaveformTransfer(channel: string, encoding: string, nByte: int,
                                 startSample: int := DefaultStartSample, endSample: Option<int> := None)
      returns (r: Outcome<Error>)
      modifies manager`replies, manager`log
      ensures r.Raised? ==> BusError(r.error) || r.error == InvalidChannel
      ensures !Ready() ==> r == Raised(NotReady()) && manager.log == old(manager.log)
      ensures Ready() ==> r == SetupOutcome(ChannelReply(old(QueuesNow()).available), IntReply(old(QueuesNow()).lengths),
        channel, endSample)
      ensures Ready() ==> manager.log == old(manager.log) + SetupEvents(inst.value, ChannelReply(old(QueuesNow()).available),
        IntReply(old(QueuesNow()).lengths), channel, encoding, nByte, startSample, endSample)
      ensures forall q :: q != AvailableQuery && q != RecordLengthQuery ==> manager.Pending(q) == old(manager.Pending(q))
      ensures manager.Pending(AvailableQuery) == Consumed(old(manager.Pending(AvailableQuery)), Ready())
      ensures manager.Pending(RecordLengthQuery) == Rest(old(manager.Pending(RecordLengthQuery)),
        if Ready() && endSample.None? && ChannelAccepted(ChannelReply(old(manager.Pending(AvailableQuery))), channel) then 1 else 0)
    {
      ghost var log0 := manager.log;
      ghost var available := ChannelReply(manager.Pending(AvailableQuery));
      ghost var length := IntReply(manager.Pending(RecordLengthQuery));
      var source := SetTransferSource(channel);
      if source.Raised? {
        return source;
      }
      r := SetupSamples(encoding, nByte, startSample, endSample);
      Associative(log0, SourceEvents(inst.value, available, channel),
        FormatEvents(inst.value, encoding, nByte, startSample) + StopEvents(inst.value, length, endSample));
    }

    /** What `setup_waveform_transfer` does once the source is set, on an open session. */
    method SetupSamples(encoding: string, nByte: int, startSample: int, endSample: Option<int>) returns (r: Outcome<Error>)
      requires Ready()
      modifies manager`replies, manager`log
      ensures r.Raised? ==> BusError(r.error)
      ensures r == StopOutcome(IntReply(old(manager.Pending(RecordLengthQuery))), endSample)
      ensures manager.log == old(manager.log) +
        (FormatEvents(inst.value, encoding, nByte, startSample) + StopEvents(inst.value, IntReply(old(manager.Pending(RecordLengthQuery))), endSample))
      ensures forall q :: q != RecordLengthQuery ==> manager.Pending(q) == old(manager.Pending(q))
      ensures manager.Pending(RecordLengthQuery) ==
        Rest(old(manager.Pending(RecordLengthQuery)), if endSample.None? then 1 else 0)
    {
      ghost var s := inst.value;
      ghost var length := IntReply(manager.Pending(RecordLengthQuery));
      SetupFormat(encoding, nByte, startSample);
      r := SetupStop(endSample);
      Associative(old(manager.log), FormatEvents(s, encoding, nByte, startSample), StopEvents(s, length, endSample));
    }

    /** The encoding, byte width and start sample of `setup_waveform_transfer`, on an open session. */
    method SetupFormat(encoding: string, nByte: int, startSample: int)
      requires Ready()
      modifies manager`log
      ensures manager.log == old(manager.log) + FormatEvents(inst.value, encoding, nByte, startSample)
    {
      var _ := SetTransferEncoding(encoding);
      var _ := SetTransferNByte(nByte);
      var _ := SetTransferStartSample(startSample);
    }

    /** The stop sample of `setup_waveform_transfer`, on an open session: the given one, or the
        record length read from the instrument. */
    method SetupStop(endSample: Option<int>) returns (r: Outcome<Error>)
      requires Ready()
      modifies manager`replies, manager`log
      ensures r.Raised? ==> BusError(r.error)
      ensures r == StopOutcome(IntReply(old(manager.Pending(RecordLengthQuery))), endSample)
      ensures manager.log == old(manager.log) + StopEvents(inst.value, IntReply(old(manager.Pending(RecordLengthQuery))), endSample)
      ensures forall q :: q != RecordLengthQuery ==> manager.Pending(q) == old(manager.Pending(q))
      ensures manager.Pending(RecordLengthQuery) ==
        Rest(old(manager.Pending(RecordLengthQuery)), if endSample.None? then 1 else 0)
    {
      var stop: int;
      if endSample.None? {
        var length := GetRecordLength();
        if length.Err? {
          return Raised(length.error);
        }
        stop := length.value;
      } else {
        stop := endSample.value;
      }
      r := SetTransferEndSample(stop);
    }

    /** `transfer_waveform(channel)`, with `toReal` standing for `float`: it ends as `Transfer`
        says on the script queued when it starts. */
    method TransferWaveform(channel: string, toReal: string -> Option<real>) returns (r: Result<Waveform, Error>)
      modifies manager`replies, manager`log, manager`curves
      ensures !Ready() ==> r == Err(NotReady()) && manager.log == old(manager.log) && QueuesNow() == old(QueuesNow())
      ensures Ready() ==> r == old(Transfer(ScriptNow(toReal), channel)) && Transferred(channel, toReal)
      ensures forall q :: !TransferQuery(q) ==> manager.Pending(q) == old(manager.Pending(q))
    {
      ghost var before := QueuesNow();
      var setup := SetupWaveformTransfer(channel, TransferEncoding, TransferByteWidth);
      QueriesDistinct();
      if Ready() {
        TransferComposes(before, inst.value, channel, toReal);
        assert QueuesNow() == AfterSetup(before, channel, None);
      } else {
        assert QueuesNow() == before;
      }
      if setup.Raised? {
        return Err(setup.error);
      }
      ghost var mid, s := QueuesNow(), inst.value;
      r := FetchAndScale(toReal);
      Associative(old(manager.log), SetupEvents(s, ChannelReply(before.available), IntReply(before.lengths), channel,
        TransferEncoding, TransferByteWidth, DefaultStartSample, None), FetchLogOf(mid, s, toReal));
    }

    /** The rest of `transfer_waveform` after the set-up: fetch the curve, read the preamble and the
        status register, scale. */
    method FetchAndScale(toReal: string -> Option<real>) returns (r: Result<Waveform, Error>)
      requires Ready()
      modifies manager`replies, manager`log, manager`curves
      ensures r == old(FetchOutcome(QueuesNow(), toReal))
      ensures manager.log == old(manager.log) + old(FetchLogOf(QueuesNow(), inst.value, toReal))
      ensures QueuesNow() == old(AfterFetch(QueuesNow(), toReal))
      ensures forall q :: q != RecordLengthQuery && !PreambleQuery(q) && q != EsrQuery ==> manager.Pending(q) == old(manager.Pending(q))
    {
      QueriesDistinct();
      ghost var s := inst.value;
      ghost var log0 := manager.log;
      ghost var length := IntReply(manager.Pending(RecordLengthQuery));
      var raw := FetchCurve();
      if raw.Err? {
        return Err(raw.error);
      }
      ghost var n := PreambleReadsNow(toReal);
      ghost var calibrated := CalibrationNow(toReal).Ok?;
      r := ReadAndScale(raw.value, toReal);
      Associative(log0, CurveEvents(s, length), PreambleLog(s, n) + (if calibrated then [Asked(s, EsrQuery)] else []));
    }

    /** The preamble and status reads of `transfer_waveform` once the curve `raw` arrived, and the
        scaling; the status query is made only after the whole preamble was read. */
    method ReadAndScale(raw: seq<int>, toReal: string -> Option<real>) returns (r: Result<Waveform, Error>)
      requires Ready()
      modifies manager`replies, manager`log
      ensures r == old(ScaleResult(raw, CalibrationNow(toReal), StatusAt(manager.Pending(EsrQuery), 0)))
      ensures manager.log == old(manager.log) + (PreambleLog(inst.value, old(PreambleReadsNow(toReal)))
        + (if old(CalibrationNow(toReal)).Ok? then [Asked(inst.value, EsrQuery)] else []))
      ensures var n := old(PreambleReadsNow(toReal));
        && manager.Pending(YMultQuery) == Rest(old(manager.Pending(YMultQuery)), 1)
        && manager.Pending(YZeroQuery) == Consumed(old(manager.Pending(YZeroQuery)), 1 < n)
        && manager.Pending(XIncrQuery) == Consumed(old(manager.Pending(XIncrQuery)), 2 < n)
        && manager.Pending(XZeroQuery) == Consumed(old(manager.Pending(XZeroQuery)), 3 < n)
        && manager.Pending(PreTriggerQuery) == Consumed(old(manager.Pending(PreTriggerQuery)), 4 < n)
      ensures manager.Pending(EsrQuery) == Consumed(old(manager.Pending(EsrQuery)), old(CalibrationNow(toReal)).Ok?)
      ensures forall q :: !PreambleQuery(q) && q != EsrQuery ==> manager.Pending(q) == old(manager.Pending(q))
    {
      QueriesDistinct();
      ghost var s := inst.value;
      ghost var log0 := manager.log;
      ghost var n := PreambleReadsNow(toReal);
      ghost var pre := PreambleLog(s, n);
      var cal := ReadCalibration(toReal);
      if cal.Err? {
        assert pre + [] == pre;
        return Err(cal.error);
      }
      ghost var log1 := manager.log;
      var status := ReadEventStatus();
      assert manager.log == log1 + [Asked(s, EsrQuery)];
      Associative(log0, pre, [Asked(s, EsrQuery)]);
      if status.Err? {
        return Err(status.error);
      }
      r := Assemble(raw, cal.value, status.value);
    }

    /** The curve fetch of `transfer_waveform`: clear the status register, read the record length
        and ask for that many points. */
    method FetchCurve() returns (r: Result<seq<int>, Error>)
      requires Ready()
      modifies manager`replies, manager`log, manager`curves
      ensures r.Err? ==> BusError(r.error)
      ensures var length := IntReply(old(manager.Pending(RecordLengthQuery)));
        && manager.log == old(manager.log) + CurveEvents(inst.value, length)
        && manager.curves == (if length.Ok? && old(manager.curves) != [] then old(manager.curves)[1..] else old(manager.curves))
        && r == match length
           case Err(e) => Err(e)
           case Ok(_) => if old(manager.curves) != [] then Ok(old(manager.curves)[0]) else Err(Transport(IoError))
      ensures manager.Pending(RecordLengthQuery) == Rest(old(manager.Pending(RecordLengthQuery)), 1)
      ensures forall q :: q != RecordLengthQuery ==> manager.Pending(q) == old(manager.Pending(q))
      ensures manager.Pending(YMultQuery) == old(manager.Pending(YMultQuery)) && manager.Pending(YZeroQuery) == old(manager.Pending(YZeroQuery))
      ensures manager.Pending(XIncrQuery) == old(manager.Pending(XIncrQuery)) && manager.Pending(XZeroQuery) == old(manager.Pending(XZeroQuery))
      ensures manager.Pending(PreTriggerQuery) == old(manager.Pending(PreTriggerQuery)) && manager.Pending(EsrQuery) == old(manager.Pending(EsrQuery))
    {
      var _ := ClearStatusRegisters();
      var points := GetRecordLength();
      if points.Err? {
        return Err(points.error);
      }
      r := AskCurve(points.value);
    }

    /** The five preamble reads of `transfer_waveform`, stopping at the first that raises; each
        query that is made uses up one reply. */
    method ReadCalibration(toReal: string -> Option<real>) returns (r: Result<Calibration, Error>)
      requires Ready()
      modifies manager`replies, manager`log
      ensures r.Err? ==> BusError(r.error)
      ensures r == old(CalibrationNow(toReal))
      ensures var n := old(PreambleReadsNow(toReal));
        && manager.log == old(manager.log) + PreambleLog(inst.value, n)
        && manager.Pending(YMultQuery) == Rest(old(manager.Pending(YMultQuery)), 1)
        && manager.Pending(YZeroQuery) == Consumed(old(manager.Pending(YZeroQuery)), 1 < n)
        && manager.Pending(XIncrQuery) == Consumed(old(manager.Pending(XIncrQuery)), 2 < n)
        && manager.Pending(XZeroQuery) == Consumed(old(manager.Pending(XZeroQuery)), 3 < n)
        && manager.Pending(PreTriggerQuery) == Consumed(old(manager.Pending(PreTriggerQuery)), 4 < n)
      ensures forall q :: !PreambleQuery(q) ==> manager.Pending(q) == old(manager.Pending(q))
      ensures manager.Pending(EsrQuery) == old(manager.Pending(EsrQuery))
    {
      ghost var s := inst.value;
      ghost var log0 := manager.log;
      ghost var n := PreambleReadsNow(toReal);
      var v := ReadVertical(toReal);
      if v.Err? {
        return Err(v.error);
      }
      var h := ReadHorizontal(toReal);
      Associative(log0, VerticalEvents(s, true), HorizontalEvents(s, 3 < n, 4 < n));
      if h.Err? {
        return Err(h.error);
      }
      r := Ok(Calibration(v.value.0, v.value.1, h.value.0, h.value.1, h.value.2));
    }

    /** The multiplier and zero of the vertical scale. */
    method ReadVertical(toReal: string -> Option<real>) returns (r: Result<(real, real), Error>)
      requires Ready()
      modifies manager`replies, manager`log
      ensures r.Err? ==> BusError(r.error)
      ensures r == old(VerticalReply(manager.Pending(YMultQuery), manager.Pending(YZeroQuery), toReal))
      ensures var second := old(RealReply(manager.Pending(YMultQuery), toReal)).Ok?;
        && manager.log == old(manager.log) + VerticalEvents(inst.value, second)
        && manager.Pending(YMultQuery) == Rest(old(manager.Pending(YMultQuery)), 1)
        && manager.Pending(YZeroQuery) == Consumed(old(manager.Pending(YZeroQuery)), second)
      ensures forall q :: q != YMultQuery && q != YZeroQuery ==> manager.Pending(q) == old(manager.Pending(q))
    {
      QueriesDistinct();
      var yMult := AskReal(YMultQuery, toReal);
      if yMult.Err? {
        return Err(yMult.error);
      }
      var yZero := AskReal(YZeroQuery, toReal);
      if yZero.Err? {
        return Err(yZero.error);
      }
      r := Ok((yMult.value, yZero.value));
    }

    /** The sample interval, first sample time and pre-trigger offset of the horizontal scale. */
    method ReadHorizontal(toReal: string -> Option<real>) returns (r: Result<(real, real, int), Error>)
      requires Ready()
      modifies manager`replies, manager`log
      ensures r.Err? ==> BusError(r.error)
      ensures r == old(HorizontalReply(manager.Pending(XIncrQuery), manager.Pending(XZeroQuery),
        manager.Pending(PreTriggerQuery), toReal))
      ensures var second := old(RealReply(manager.Pending(XIncrQuery), toReal)).Ok?;
        var third := second && old(RealReply(manager.Pending(XZeroQuery), toReal)).Ok?;
        && manager.log == old(manager.log) + HorizontalEvents(inst.value, second, third)
        && manager.Pending(XIncrQuery) == Rest(old(manager.Pending(XIncrQuery)), 1)
        && manager.Pending(XZeroQuery) == Consumed(old(manager.Pending(XZeroQuery)), second)
        && manager.Pending(PreTriggerQuery) == Consumed(old(manager.Pending(PreTriggerQuery)), third)
      ensures forall q :: q != XIncrQuery && q != XZeroQuery && q != PreTriggerQuery ==> manager.Pending(q) == old(manager.Pending(q))
    {
      QueriesDistinct();
      var xIncr := AskReal(XIncrQuery, toReal);
      if xIncr.Err? {
        return Err(xIncr.error);
      }
      var offsets := ReadOffsets(toReal);
      if offsets.Err? {
        return Err(offsets.error);
      }
      r := Ok((xIncr.value, offsets.value.0, offsets.value.1));
    }

    /** The first sample time and the pre-trigger offset, read after the sample interval. */
    method ReadOffsets(toReal: string -> Option<real>) returns (r: Result<(real, int), Error>)
      requires Ready()
      modifies manager`replies, manager`log
      ensures r.Err? ==> BusError(r.error)
      ensures var xZero := old(RealReply(manager.Pending(XZeroQuery), toReal));
        && r == (match xZero
                 case Err(e) => Err(e)
                 case Ok(b) => match old(IntReply(manager.Pending(PreTriggerQuery)))
                   case Err(e) => Err(e)
                   case Ok(c) => Ok((b, c)))
        && manager.log == old(manager.log) + [Asked(inst.value, XZeroQuery)] + (if xZero.Ok? then [Asked(inst.value, PreTriggerQuery)] else [])
        && manager.Pending(XZeroQuery) == Rest(old(manager.Pending(XZeroQuery)), 1)
        && manager.Pending(PreTriggerQuery) == Consumed(old(manager.Pending(PreTriggerQuery)), xZero.Ok?)
      ensures forall q :: q != XZeroQuery && q != PreTriggerQuery ==> manager.Pending(q) == old(manager.Pending(q))
    {
      QueriesDistinct();
      var xZero := AskReal(XZeroQuery, toReal);
      if xZero.Err? {
        return Err(xZero.error);
      }
      var preTrigger := AskInt(PreTriggerQuery);
      if preTrigger.Err? {
        return Err(preTrigger.error);
      }
      r := Ok((xZero.value, preTrigger.value));
    }
  }
}

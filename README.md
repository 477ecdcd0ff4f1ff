# Tektronix MSO54 lab driver, modelled in Dafny

This project models the driver for a Tektronix 5 Series mixed-signal oscilloscope (class `MSO54`)
and the small application model that drives it (class `Model`), and proves properties of both.
The driver does these jobs:

- It finds the instrument on the bus, or opens a fixed address.
- It parses the instrument's replies.
- It runs single-sequence acquisitions with a bounded completion poll.
- It sets up a waveform transfer, fetches the curve and scales it into volts over a time axis.

The application model keeps a three-valued connection state. It tells every attached observer
each time that state is set. A timer routine reconnects when needed and refreshes the channel list.

The instrument bus is abstract (module `Visa`). It holds three things:

- resource descriptors, each with an address, whether opening it succeeds, its interface kind and
  its reply to `*IDN?`;
- a queue of scripted replies per query text, and a queue of curves for the binary curve query;
- an append-only log of every open, close, write, query and curve fetch, by session.

An empty reply queue stands for a timeout. An open session can also lose its instrument
(`Visa.ResourceManager.Lose`, an event of the environment between driver calls): from then on
its `*IDN?` times out. The driver's methods are stated against this log and
these queues. Each method's result and new log are tied to specification functions of the
pre-state, and the properties the driver promises are proved about those functions as lemmas.

Files:

- `wrappers.dfy`: `Option`, `Result` and `Outcome`, the last being "returned normally or raised".
- `text.dfy`: the Python string operations the driver uses, with proofs for each:
  `lower`, substring `in`, `strip`, `split`, `int()` and `str()` of an integer.
- `scaling.dfy`: the affine sample scaling, the `linspace` time axis and the status-register mask.
- `visa.dfy`: the abstract bus (`ResourceManager`).
- `mso54.dfy`: the exceptions, the parsing and sequencing specifications, and class `MSO54`.
- `lab_model.dfy`: `State`, the observers, and class `Model`.

Numbers are Dafny's unbounded `int` and exact `real`. Python's `float()` of a reply token is a
parameter `toReal: string -> Option<real>`, where `None` means `float` raised `ValueError`.

## Model

| member | source | states |
|---|---|---|
| Mso54.MSO54.constructor | mso54.py:62-65 | a new driver holds the given bus and address (None: search the bus) and no instrument (`_inst` is None) |
| Mso54.MSO54.Connect | mso54.py:72-84 | with no address, the effect is the bus search; with an address, the first resource under it is opened, `*cls` is written before `*IDN?` is asked, a failed open raises `NoConnectionError` and leaves `_inst` alone, a failing `*IDN?` passes the bus error on, and a reply without "mso" closes the session and raises `WrongInstrumentError`; the whole log is stated for each case, and no reply queue changes |
| Mso54.MSO54.SearchInstrument | mso54.py:87-109 | resources are tried in enumeration order up to and including the first match, or all of them; the sessions opened, the sessions closed and the log are exactly those of that scan; `_inst` becomes the match's session, otherwise `NoConnectionError` is raised and `_inst` is kept |
| Mso54.MSO54.TryCandidate | mso54.py:91-105 | one pass of the discovery loop: a resource that fails to open is skipped; a USB resource is kept exactly when its `*IDN?` reply contains "mso" in any case, and is otherwise dropped; any other resource is closed |
| Mso54.FirstMatch | mso54.py:90-100 | the index discovery stops at: it opens, is on USB and identifies as the instrument, and no earlier resource does; None exactly when no resource does |
| Mso54.ScanLength | mso54.py:90-105 | discovery tries at most every listed resource |
| Mso54.ScanOpens | mso54.py:90-94 | every resource tried that opens is opened once, on the session numbered by enumeration order, and nothing else is opened |
| Mso54.OpenedDuringAt | mso54.py:90-94 | session numbers follow enumeration order, and resource j's session holds resource j |
| Mso54.ClosedDuringBounds | mso54.py:103-105 | discovery closes only sessions it opened itself |
| Mso54.ClosedDuringIff | mso54.py:95-105 | an opened resource's session is closed by discovery exactly when it is not on USB, so a non-matching USB resource is left open |
| Mso54.IdentifiesAsMso | mso54.py:82 | the identity test: the lowercased name "mso" is a substring of the lowercased reply |
| Mso54.IdentifiesAsMsoIff | mso54.py:82 | an identity reply is accepted exactly when the letters m, s, o, each in either case, occur in it consecutively |
| Mso54.MSO54.Disconnect | mso54.py:111-117 | closes `_inst` if it is an open session, and otherwise does nothing (no instrument, or already closed); `_inst` itself is never reset |
| Mso54.MSO54.IsConnected | mso54.py:119-128 | False without an instrument; on an open session, True exactly when `*IDN?` is answered (so False once the instrument is lost), with one `*IDN?` in the log; a closed session raises an error that `is_connected` does not catch; no reply queue changes |
| Mso54.MSO54.Send | mso54.py:132 | a write on `_inst`: on an open session it is logged and succeeds; otherwise it raises (no instrument, or a closed session) and nothing is logged |
| Mso54.MSO54.Ask | mso54.py:136 | a query on `_inst`: on an open session it returns the next scripted reply (a timeout when none is left) and uses up exactly that reply; every other queue is untouched |
| Mso54.MSO54.AskInt | mso54.py:153 | `int` of the last space-separated token of the next reply, as `IntReply` says; the reply is used up; a bad token raises `ValueError` |
| Mso54.MSO54.AskReal | mso54.py:199 | `float` of the last space-separated token of the next reply, as `RealReply` says; the reply is used up |
| Mso54.MSO54.ReadEventStatus | mso54.py:145 | `int` of the whole next `*ESR?` reply; exactly one `*ESR?` reply is used up |
| Mso54.MSO54.AskCurve | mso54.py:190-196 | the binary curve query for the given point count returns the next queued curve and removes it from the queue, or times out when none is queued |
| Mso54.MSO54.ClearStatusRegisters | mso54.py:131-132 | writes `*CLS` and nothing else |
| Mso54.Acquisition | mso54.py:135-150 | the events and the outcome of `acquire_single_sequence`, given the stop-after reply and the `*ESR?` readings: the stop-after query, the mode write when needed, then either `ACQUIRE:STATE ON` alone or the five arming writes and the poll |
| Mso54.MSO54.AcquireSingleSequence | mso54.py:135-150 | the result and the whole log are those of `Acquisition` on the stop-after reply and the scripted `*ESR?` replies; one stop-after reply is used up; with completion awaited, exactly the `*ESR?` replies the poll read are used up, otherwise none; other reply queues are untouched; without an instrument, the call raises and the log is unchanged |
| Mso54.MSO54.ArmAndAwait | mso54.py:139-148 | writes `DESE 1`, `*ESE 1`, `*SRE 0`, `ACQUIRE:STATE ON`, `*OPC` in that order, then polls as `Poll` says; exactly the `*ESR?` replies read are used up, and no other queue changes |
| Mso54.MSO54.AwaitCompletion | mso54.py:144-148 | the loop makes exactly as many `*ESR?` reads as `Poll` counts and ends as `Poll` does; exactly those replies are used up, and no other queue changes |
| Mso54.Poll | mso54.py:144-148 | the poll makes at least one and at most a hundred readings |
| Mso54.PollStopsAtFirstOne | mso54.py:145 | the poll finishes at the first read that is exactly 1 when every earlier read is a number other than 1 |
| Mso54.PollDoneOnlyOnOne | mso54.py:145 | the poll finishes only on a read of exactly 1, and every read before it was a number other than 1 |
| Mso54.PollTimeoutIff | mso54.py:147-148 | the assertion fails exactly when a hundred consecutive reads are numbers other than 1, and it has then made exactly a hundred reads |
| Mso54.ReadingsNeverTimeout | mso54.py:145 | reading a reply never yields the poll's own assertion error |
| Mso54.NeedsStopAfter | mso54.py:136 | the mode is rewritten when the reply, lowercased and stripped, is not "sequence" |
| Mso54.AcquisitionWritesStopAfterIff | mso54.py:136-137 | `ACQuire:STOPAfter SEQuence` is written exactly when the lowercased, stripped stop-after reply is not "sequence" |
| Mso54.AcquisitionPollsWithinLimit | mso54.py:138-148 | with completion awaited, the log is the stop-after part, then the five arming writes in order, then n `*ESR?` queries with 1 <= n <= 100, and no `*ESR?` is asked before arming |
| Mso54.IntToken | mso54.py:153 | a number reply is read as `int` of its last space-separated token |
| Mso54.MSO54.GetRecordLength | mso54.py:152-153 | `int` of the last space-separated token of the next `HORizontal:RECORDLength?` reply; a missing reply times out and a bad token raises `ValueError`; exactly that reply is used up |
| Mso54.NumberReadsBack | mso54.py:153 | a reply made of a header, a space and `str(n)` reads back as n |
| Mso54.ChannelsOf | mso54.py:156 | a listing reply is stripped, its last space-separated token taken and split on commas |
| Mso54.MSO54.GetAvailableChannels | mso54.py:155-159 | the channel list of the next `DATa:SOUrce:AVAILable?` reply, parsed as `ChannelsOf` says; exactly that reply is used up and no other queue changes |
| Mso54.ChannelsOfShape | mso54.py:156 | the list has at least one name, no name holds a comma or blank, and the names joined by commas give back the last token of the stripped reply |
| Mso54.ChannelsOfListing | mso54.py:156 | a listing `header ch1,ch2,...` reads back as exactly those channels, in the instrument's order |
| Mso54.MSO54.SetTransferSource | mso54.py:161-166 | asks for the channel listing, parsed as `get_available_channels` does; a channel not in it raises `ValueError` and nothing is written; otherwise exactly `DATa:SOUrce <channel>` is written; one listing reply is used up and no other queue changes |
| Mso54.MSO54.SetTransferEncoding | mso54.py:168-169 | writes exactly `DATa:ENCdg <encoding>`, with default ASCII |
| Mso54.MSO54.SetTransferNByte | mso54.py:171-172 | writes exactly `WFMOutpre:BYT_Nr <n>`, with default 1 |
| Mso54.MSO54.SetTransferStartSample | mso54.py:174-175 | writes exactly `DATa:STARt <n>`, with default 1 |
| Mso54.MSO54.SetTransferEndSample | mso54.py:177-178 | writes exactly `DATa:STOP <n>`, with default 62500000 |
| Mso54.MSO54.SetupWaveformTransfer | mso54.py:219-226 | the result and the whole log are `SetupOutcome` and `SetupEvents`: the channel check first and nothing after a refusal; then encoding, byte width, start and stop in that order; without an end sample the record length is read and written as the stop; one listing reply is used up, a record length reply only when it is read, and no other queue changes |
| Mso54.MSO54.SetupSamples | mso54.py:221-226 | once the source is set: encoding, byte width, start and stop written in that order, the stop as `SetupStop` says |
| Mso54.MSO54.SetupFormat | mso54.py:221-223 | writes the encoding, byte width and start sample commands, in that order |
| Mso54.MSO54.SetupStop | mso54.py:224-226 | a given end sample is written as it is; otherwise the record length is read first and that value is written, or the read's error is raised |
| Mso54.Transfer | mso54.py:181-216 | how `transfer_waveform` ends on the parsed replies: the set-up's error, or the first failing read after it, or the assembled waveform |
| Mso54.MSO54.TransferWaveform | mso54.py:181-216 | ends as `Transfer` says on the script queued when it starts; on an open session `Transferred` holds on every path: the log grows by `TransferLog` (the set-up's events, then, once set up, the curve fetch and exactly the preamble and status queries made), the transfer's queues become `AfterTransfer` of what they were, and no other query's queue changes; without an open session it raises and leaves the log and every queue unchanged |
| Mso54.MSO54.FetchAndScale | mso54.py:188-216 | after the set-up: curve, preamble, status, then scaling; it ends as `FetchOutcome` says on the queues it starts from, the log grows by `FetchLogOf` of them, and the queues become `AfterFetch` of them; no other query's queue changes |
| Mso54.TransferComposes | mso54.py:181-226 | the whole transfer is its set-up followed, once that succeeded, by the fetch on the queues the set-up left (`AfterSetup`): the same result as `Transfer`, the same log as `TransferLog`, the same queues as `AfterTransfer`; after a refused set-up, the set-up's error, its events and its queues |
| Mso54.AfterSetup | mso54.py:219-226 | the queues after the set-up on an open session: one listing reply, and one record length reply when the channel is accepted and no end sample is given |
| Mso54.AfterFetch | mso54.py:188-216 | the queues after the fetch: one record length reply; the curve once that was read; one reply for each preamble query made; the status value once the whole preamble was read |
| Mso54.AfterTransfer | mso54.py:181-216 | the queues after a whole transfer, on every path, stated from the queues it starts from |
| Mso54.TransferLog | mso54.py:181-226 | everything a transfer puts on the bus, on every path, stated from the queues it starts from |
| Mso54.MSO54.FetchCurve | mso54.py:188-196 | writes `*CLS`, reads the record length and fetches that many points, or passes on the record length error; one record length reply is used up, and the fetched curve leaves the curve queue |
| Mso54.MSO54.ReadAndScale | mso54.py:199-216 | once the curve arrived: the preamble, then `*ESR?` only when the whole preamble was read, then the scaling and corruption check; each query made uses up one reply |
| Mso54.MSO54.ReadCalibration | mso54.py:199-204 | the five preamble values as `CalibrationReply` reads them, in source order, stopping at the first that raises; the log holds exactly the queries made and each used up one reply |
| Mso54.MSO54.ReadVertical | mso54.py:199-200 | the vertical multiplier, then the vertical zero only if the multiplier was read; each query made uses up one reply |
| Mso54.MSO54.ReadHorizontal | mso54.py:202-204 | the sample interval, first sample time and pre-trigger offset in that order, stopping at the first that raises; each query made uses up one reply |
| Mso54.MSO54.ReadOffsets | mso54.py:203-204 | the first sample time, then the pre-trigger offset only if that was read |
| Mso54.ParsedScriptIsBus | mso54.py:153-213 | parsing the queued replies never produces a driver exception; every failed read is a bus, `int` or `float` error |
| Mso54.TransferReachesCheckIff | mso54.py:181-216 | the transfer returns a waveform or raises `DataTransferError` exactly when the channel is accepted and every read succeeds |
| Mso54.TransferScales | mso54.py:207-216 | at the final check, `DataTransferError` is raised exactly when the status value flags an error; otherwise data and time have the raw length, `data[i] == raw[i]*y_mult + y_zero`, `time[i] == t_start + i*x_incr`, and the sample period is `x_incr` |
| Mso54.TransferErrors | mso54.py:161-166 | `ValueError('Invalid channel selected')` comes out of the transfer exactly when the listing was read and lacks the channel; `VisaError` never comes out |
| Mso54.TransferEventsInOrder | mso54.py:181-226 | a transfer that reaches its final check sends exactly these 16 events in order: the listing query, source, encoding `SRIbinary`, byte width 2, start 1, the record length query and the stop at that length, `*CLS`, a second record length query, the curve query for that many points, the five preamble queries and `*ESR?` |
| Mso54.Assemble | mso54.py:207-216 | the end of the transfer: `DataTransferError` when the status value flags corruption, otherwise the time axis, the scaled samples and `x_incr` |
| Mso54.AssembleShape | mso54.py:207-216 | the scaling and the corruption check on given raw samples, preamble and status value, as in `TransferScales` |
| Mso54.AssembleRejectsIffMasked | mso54.py:213-214 | a waveform is refused exactly when the status value ANDed with 0b00111100 is nonzero, with `&` defined bit by bit |
| Scaling.Scale | mso54.py:207 | one volt value per raw sample, each `raw[i]*y_mult + y_zero` |
| Scaling.ScaleInverse | mso54.py:207 | with a nonzero multiplier each raw sample can be recovered from its volt value |
| Scaling.Linspace | mso54.py:211 | numpy's `linspace`: n points from start to stop, both included, evenly spaced |
| Scaling.TimeAxis | mso54.py:208-211 | the time axis: `linspace` from `t_start` to `t_start + (n-1)*x_incr` with n points |
| Scaling.TimeAxisEvenlySpaced | mso54.py:208-211 | the `linspace` axis has n points, which are `t_start + i*x_incr`; so it ends at `t_start + (n-1)*x_incr` |
| Scaling.TimeAxisStep | mso54.py:208-211 | consecutive points of the time axis differ by exactly `x_incr` |
| Scaling.TimeAxisIncreasing | mso54.py:208-211 | with a positive sample interval the time axis strictly increases |
| Scaling.TransferErrorBits | mso54.py:213 | the masked status value: bits 2 to 5 of it, kept in place |
| Scaling.TransferErrorBitsIsMask | mso54.py:213 | the closed form of the mask agrees with bitwise AND against 0b00111100 on non-negative values |
| Scaling.TransferErrorBitsOfLowBits | mso54.py:213 | for every integer, negative ones included, the closed form is the AND of the mask with the value's six lowest two's-complement bits |
| Scaling.TransferCorruptedIffErrorBit | mso54.py:213 | a transfer is flagged exactly when bit 2, 3, 4 or 5 of the status value is set |
| Text.Lower | mso54.py:82 | `str.lower()` letter by letter |
| Text.ContainsIff | mso54.py:82 | Python's `needle in hay` holds exactly when the needle occurs at some index |
| Text.Strip | mso54.py:136 | `str.strip()`: whitespace removed from both ends |
| Text.StripShape | mso54.py:136 | `strip` removes exactly the leading and trailing blanks, and what is left starts and ends with a non-blank |
| Text.Split | mso54.py:156 | `str.split(sep)` with a one-character separator: at least one piece, even for "" |
| Text.SplitShape | mso54.py:156 | `split(sep)` gives pieces without `sep` that, joined by `sep`, give back the string |
| Text.SplitOfJoin | mso54.py:156 | splitting a join of separator-free words by that separator gives back the words |
| Text.LastTokenIsTail | mso54.py:153 | `split(' ')[-1]` is the blank-free suffix after the last blank |
| Text.ParseInt | mso54.py:145 | `int()` of a string: optional surrounding whitespace, an optional sign and decimal digits; anything else is a `ValueError` |
| Text.ParseIntOfIntToString | mso54.py:172-178 | `int(str(n)) == n` for every integer |
| Visa.ResourceManager.OpenResource | mso54.py:92-94 | opening a listed resource gives a new session on it, or fails with nothing changed |
| Visa.ResourceManager.OpenAddress | mso54.py:77 | opening an address reaches the first resource listed under it |
| Visa.ResourceManager.Close | mso54.py:104 | closing an open session records it as closed; closing a closed one does nothing |
| Visa.ResourceManager.Write | mso54.py:78 | a write on an open session is logged; on a closed session it raises and nothing is logged |
| Visa.ResourceManager.Query | mso54.py:124 | a query on an open session reads the next scripted reply and consumes it; `*IDN?` is answered by the session's resource until the instrument is lost |
| Visa.ResourceManager.QueryBinary | mso54.py:190-196 | a binary query on an open session is logged with its point count and hands over the next queued curve, removing it, or times out |
| LabModel.Model.constructor | model.py:17-21 | a new model has a driver that searches the bus with no instrument, no observers, state DISCONNECTED and no channel list |
| LabModel.Model.Attach | model.py:59-60 | the observer set gains the observer; attaching twice leaves one copy |
| LabModel.Model.Detach | model.py:62-63 | the observer set loses the observer; detaching an absent one does nothing |
| LabModel.Model.Notify | model.py:65-67 | every attached observer is told the current state exactly once |
| LabModel.Model.SetState | model.py:76-79 | the state is stored, then every attached observer is told it once, even when it is unchanged |
| LabModel.Observer.Update | model.py:67 | an observer records each state it is told, in order |
| LabModel.Model.TimerRoutine | model.py:27-43 | `connect` is called exactly when the state is not CONNECTED; `NoConnectionError` and `WrongInstrumentError` never escape; after a normal return the state is CONNECTED exactly when `is_connected()` was True, observers were told, and the channel list is refreshed only when connected; from CONNECTED with a live instrument the log is `*IDN?` then the listing query; from CONNECTED with a lost instrument the state becomes DISCONNECTED, the log is one `*IDN?` and the channel list is kept |
| LabModel.Model.Refresh | model.py:38-42 | the state is set from `is_connected`, and when connected the channel list is read after the state is set; a failing read leaves the state CONNECTED and the old list in place; one listing reply is used up only when connected |
| LabModel.DataOf | model.py:48-56 | the result of `data` for a given transfer outcome: the waveform, nothing when `VisaError` was caught, or the exception |
| LabModel.Model.Data | model.py:46-56 | not connected: None, and the log, reply queues and curve queue are unchanged; connected: the transfer's waveform or its exception, with the bus left exactly as the transfer leaves it |
| LabModel.DataPassesTransferOn | model.py:48-54 | the `VisaError` handler of `data` never fires: the result is the waveform exactly when the transfer succeeds, and the transfer's own exception otherwise |

## Left out

- pyvisa itself is abstract: listing, opening, interface kinds, writes, queries and closing are the operations of `Visa.ResourceManager`. The resource manager is passed to the constructors instead of being created by them.
- A write on an open session always succeeds. So the `VisaIOError` of `write('*cls')` in `connect` (mso54.py:78-80) is not modelled.
- A call on a closed session raises pyvisa's invalid-session error (`Transport(InvalidSession)`), which is not a `VisaIOError`. This follows pyvisa, whose code is not part of this model.
- Mso54.MSO54.SetTransferSource: returns `Done` where the source returns what `write` returns (the byte count pyvisa reports), because the bus does not model byte counts.
- Mso54.MSO54.SetTransferEncoding: returns `Done` instead of the byte count of the write, for the same reason.
- Mso54.MSO54.SetTransferNByte: returns `Done` instead of the byte count of the write, for the same reason.
- Mso54.MSO54.SetTransferStartSample: returns `Done` instead of the byte count of the write, for the same reason.
- Mso54.MSO54.SetTransferEndSample: returns `Done` instead of the byte count of the write, for the same reason.
- Several things are a single `Error` constructor here, not Python's own exception classes:
  - an `AttributeError` from using `_inst` while it is None is `NoInstrument`;
  - the two `ValueError`s are kept apart, as `InvalidChannel` and `BadNumber`;
  - the polling `AssertionError` is `AcquisitionTimeout`.
- The assertion under `python -O`, where it is removed, is not modelled.
- The binary decoding inside `query_binary_values` (datatype `h`, little endian, numpy container) is left out. The bus hands over the next queued sequence of integers, and the requested point count is only recorded in the log.
- `float()` is the parameter `toReal`. IEEE rounding is left out: the scaling and the time axis are exact over `real`.
- Text.Strip: treats only Latin-1 characters as whitespace (tab to carriage return, the information separators, space, next-line and no-break space). Python's `str.strip()` also removes the other Unicode whitespace (U+1680, U+2000 to U+200A, U+2028, U+2029, U+202F, U+205F, U+3000). This limit reaches `ChannelsOf`, `NeedsStopAfter` and `IntReply` through `Strip`.
- Text.ParseInt: follows Python `int()` only on Latin-1 blanks, an optional sign and ASCII digits. Underscores and non-ASCII digits are left out.
- Text.Lower: folds ASCII letters only.
- `sleep(0.1)` between polls and all real timing are left out; only the number of reads is modelled.
- The `print` calls (mso54.py:189, 197; model.py:33, 36, 54) and the empty `__del__` bodies are left out.
- The unused `WaveType` enum (mso54.py:44-48) is left out.
- view.py and control.py (user interface, file I/O) are not part of this model.
- The `get_available_channels` getter of `Model` (model.py:69-70) and the `state` getter (model.py:72-74) are plain reads of the fields `availableChannels` and `state`.
- Observers are told in an unspecified order, as iteration over a Python set is. What an observer does with the state (the view's `update`) is replaced by recording it.
- The BUSY state is declared but never set by the model. `Model.Valid` records that.
- Concurrency: there is none, and the driver assumes one caller.

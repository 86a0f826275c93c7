# Motate in Dafny

Motate is a C++ hardware layer for Atmel SAM, XMega and Freescale KL
microcontrollers. Most of it is register plumbing. The parts with sequential
logic are modelled here, with the registers as plain integer fields:

- the compile-command recorder script that keeps a build's
  `compile_commands.json` up to date (`compile_recorder.dfy`);
- the C-string and integer utilities and the bit helpers (`utilities.dfy`);
- the interrupt-cause flag word shared by every peripheral (`common.dfy`);
- the JSON command parser: the FNV-1a name hash, the binder lookup, the
  name and string scanners that rewrite the buffer in place, the object
  parser and the instruction list and stack it fills (`json.dfy`);
- the SPI and TWI message buses: a linked device list and a linked message
  queue with transaction affinity (`spi_bus.dfy`, `twi_bus.dfy`, with the
  shared sequence facts in `chains.dfy`);
- the buffered UART front end: the string and Buffer writes with their
  retry loops, the overflow buffer, the receive-transfer start and the
  interrupt handler (`uart.dfy`);
- the SAM timers: the SysTick tick count and its linked event list, the
  polling Timeout, the interrupt-cause decoding, the timer-counter clock
  choice and the PWM divisor searches (`timers.dfy`);
- the SAM TWIHS (I2C) driver: the address packing of setAddress, the
  clock-divider search of setSpeed and the interrupt-cause decoding
  (`sam_twi.dfy`), and the transfer state machine of startTransfer and
  prehandleInterrupt, both as functions on a transfer value and as the
  driver object whose fields they update (`sam_twi_transfer.dfy`);
- the SAM SPI driver: the chip-select register values of setChannel and
  setChannelOptions (baud divider, word size, delays), the interrupt-cause
  decoding, startTransfer's use of the DMA and the chip-select
  multiplexer's computeCsValue (`sam_spi.dfy`);
- the SAM peripheral DMA controller (PDC): the two-slot receive and
  transmit counters, leftToRead and the done tests, and the starts of both
  PDC drivers, including the extension of a running receive over an
  overlapping buffer, plus the XDMAC stand-in of the older driver
  (`sam_dma.dfy`);
- the SAM XDMAC driver: the channel numbers handed out by the interrupt
  registration list, the transmit handler's cause, and the transmit and
  receive starts on one channel's registers (`sam_xdmac.dfy`);
- the SAM USART and UART drivers: the baud divisor and mode register of
  setOptions, the interrupt enables and the masked interrupt cause,
  writeByte, flush and the pausing of transmit transfers (`sam_uart.dfy`);
- the SAM3X USART driver: setOptions, the interrupt enables, the unmasked
  interrupt cause, the PDC's two-slot starts, and the blocking read and
  write loops of its UART front end (`sam3xa_uart.dfy`);
- the SAM pin layer: the port's list of pin-change interrupts, setModes'
  peripheral selection and clock gating, getMode, the decoding of
  pin-interrupt options in setInterrupts, and the prescaler of a
  clock-output pin (`sam_pins.dfy`);
- the SAM unique identifier's string: sixteen lowercase hex digits in four
  dashed groups, precomputed from the four identifier words
  (`sam_unique_id.dfy`);
- the SAM USB device drivers: the endpoint size encodings and the limits on
  an endpoint's configuration, the SAM3X control endpoint's IN and OUT data
  stages through its two-part setup buffer, and, for both the SAM3X and the
  SAMS70, the DMA transfer bookkeeping, the VBUS handling and the pass over
  the endpoints that releases banks and finishes transfers (`sam_usb.dfy`,
  `sam_usb_s70.dfy`);
- the prescaler search that the XMega and KL05Z timers' setModeAndFrequency
  share, and the polling Timeout (`timer_common.dfy`);
- the XMega timer/counter driver: the waveform, clock-select, period,
  compare and output-enable registers, the interrupt levels of INTCTRLA and
  INTCTRLB, and the SysTick count kept on the real-time counter
  (`xmega_timers.dfy`);
- the KL05Z TPM timer driver: the status-and-control, modulo and channel
  registers, the channel output modes, the interrupt enables and NVIC
  priority, getInterruptCause and the SysTick reload (`kl05z_timers.dfy`);
- the XMega USART driver: the baud table and its BAUDCTRLA/B encoding, the
  CTRLC frame, the interrupt levels with the remembered TX-ready priority,
  the byte read and write and the string write (`xmega_uart.dfy`);
- the KL05Z UART0 driver: the search for the oversampling ratio and SBR,
  the fields setOptions writes, the interrupt enables and priority,
  getInterruptCause and the byte read and write (`kl05z_uart.dfy`);
- the flow control of the buffered UART hardware, the same code on the
  XMega and the KL05Z: RTS/CTS and XON/XOFF, the interrupt handler that
  drains the transmit buffer and fills the receive buffer, and the resume
  delay after a CTS change (`buffered_uart.dfy`).

A linked list is modelled by its nodes in link order (a ghost sequence kept
in step with the `next` pointers), so each pointer operation is proved
against a change of that sequence. Hardware calls (`startTransfer`,
`setChannel`, `deassert`) are recorded in fields of the bus, so the proofs
state which calls happen and with which arguments.

## Model

| member | source | states |
|---|---|---|
| CompileRecorder.Join | MotateProject/motate/compile_recorder.js:5-9 | the command is the arguments joined with single spaces; when none of them holds a space, splitting the command at spaces gives the arguments back |
| CompileRecorder.FirstNull | MotateProject/motate/compile_recorder.js:14-30 | the position of the first null entry (reading its fields throws and the empty catch ends the loop), or the length: every earlier entry is non-null |
| CompileRecorder.Kept | MotateProject/motate/compile_recorder.js:24-28 | dropping the records for the same file and directory never lengthens the list |
| CompileRecorder.KeptAppend | MotateProject/motate/compile_recorder.js:17-29 | the filter works entry by entry, so it distributes over concatenation |
| CompileRecorder.KeptMembers | MotateProject/motate/compile_recorder.js:24-28 | an entry survives iff it was in the list and is not an object for the same file and directory, whether or not its command is a string |
| CompileRecorder.KeptNoTarget | MotateProject/motate/compile_recorder.js:26-28 | with no object for the target (with or without a string command), every entry is kept in its original order |
| CompileRecorder.KeptNoNull | MotateProject/motate/compile_recorder.js:17-29 | a list without null entries stays without them after the filter |
| CompileRecorder.Record | MotateProject/motate/compile_recorder.js:11-37 | the loop ends at a null entry or an identical record; should-write is false exactly when an identical record precedes the first null entry, and otherwise the list is the kept entries read so far (every object for the target dropped, with or without a string command) followed by the new record |
| CompileRecorder.UniqueAfterWrite | MotateProject/motate/compile_recorder.js:32-37 | after a write the new record is last and no other record has the same file and directory |
| CompileRecorder.OthersKept | MotateProject/motate/compile_recorder.js:24-28 | an entry that is not an object for the target is written back iff it came before the first null entry |
| CompileRecorder.Idempotent | MotateProject/motate/compile_recorder.js:19-23 | running the recorder again on what it wrote writes nothing |
| CompileRecorder.MissingDatabase | MotateProject/motate/compile_recorder.js:14-15 | a missing or unparsable file reads as no entries and yields exactly the new record |
| CompileRecorder.NullTruncates | MotateProject/motate/compile_recorder.js:14-30 | a null entry ends the reading: the result is as if the file ended just before it |
| CompileRecorder.Supersedes | MotateProject/motate/compile_recorder.js:24-25 | a stale entry for the same target, either a record with another command or an object without a string command, is replaced by the new record at the end; the other entries keep their order |
| CompileRecorder.ArgumentsFormDropped | MotateProject/motate/compile_recorder.js:19-28 | an object for the target in the database's "arguments" form (no string command) never matches exactly and is dropped: a database holding only it is rewritten as the new record alone |
| MotateCommon.MasksDisjoint | MotateProject/motate/MotateCommon.h:46-73 | each event flag is its own bit below 0x100 and the priorities lie at bit 11 and above |
| MotateCommon.OrFrame | MotateProject/motate/MotateCommon.h:103-128 | or-ing one flag's mask leaves every other flag as it was |
| MotateCommon.AndNotFrame | MotateProject/motate/MotateCommon.h:105-129 | clearing one flag's mask leaves every other flag as it was |
| MotateCommon.WithFlag | MotateProject/motate/MotateCommon.h:103-128 | the flag is set and every other flag is unchanged |
| MotateCommon.WithoutFlag | MotateProject/motate/MotateCommon.h:105-129 | the flag is clear and every other flag is unchanged |
| MotateCommon.SetThenClear | MotateProject/motate/MotateCommon.h:103-129 | setting a clear flag and then clearing it restores the word |
| MotateCommon.InterruptCause.constructor | MotateProject/motate/MotateCommon.h:97 | the cause holds the given word |
| MotateCommon.InterruptCause.Empty | MotateProject/motate/MotateCommon.h:97-101 | a default cause is empty, no flag set |
| MotateCommon.InterruptCause.Clear | MotateProject/motate/MotateCommon.h:99 | clear() returns the cause to empty |
| MotateCommon.InterruptCause.Set | MotateProject/motate/MotateCommon.h:103-128 | setX makes isX true and no other flag changes |
| MotateCommon.InterruptCause.ClearFlag | MotateProject/motate/MotateCommon.h:105-129 | clearX makes isX false and no other flag changes |
| Utilities.Len | MotateProject/motate/MotateUtilities.h:53-61 | the index of the first NUL: no NUL before it |
| Utilities.CStrlen | MotateProject/motate/MotateUtilities.h:53-61 | 0 for a null pointer, else count plus the characters before the NUL |
| Utilities.Strlen | MotateProject/motate/MotateUtilities.cpp:124-126 | strlen is c_strlen from 0 |
| Utilities.StreqMeaning | MotateProject/motate/MotateUtilities.cpp:128-143 | streq is 1 iff the strings agree on their first n characters or up to a common end |
| Utilities.StreqSymmetric | MotateProject/motate/MotateJSON.cpp:150-165 | c_streq (the same recursion as streq) is symmetric in its two strings, null included |
| Utilities.CopyCount | MotateProject/motate/MotateUtilities.h:110-119 | the returned count is the copied length, or max_len_ once the string does not fit, and never exceeds max_len_ |
| Utilities.CStrcpy | MotateProject/motate/MotateUtilities.h:110-119 | null pointers or max_len_ <= 0 write nothing; otherwise at most max_len_-1 characters are copied, a NUL follows, nothing else changes |
| Utilities.Strncpy | MotateProject/motate/MotateUtilities.cpp:149-151 | strncpy is c_strcpy from count 0 |
| Utilities.CStrReverse | MotateProject/motate/MotateUtilities.h:64-69 | the first count_ characters are reversed in place, the rest is unchanged, count_ is returned |
| Utilities.Digits | MotateProject/motate/MotateUtilities.h:77-85 | the decimal digits of a value, at least one, all '0'..'9' |
| Utilities.DigitsRoundTrip | MotateProject/motate/MotateUtilities.h:77-85 | reading the digits back gives the value |
| Utilities.RevDigitsReversed | MotateProject/motate/MotateUtilities.h:77-85 | the backwards digit order reversed is the decimal digit order |
| Utilities.ItoaBackwards | MotateProject/motate/MotateUtilities.h:77-85 | writes the digits least significant first; returns count_ plus their number when they fit in fewer than maxlen cells, else 0 with the first maxlen of them written; no other cell changes |
| Utilities.ItoaDigits | MotateProject/motate/MotateUtilities.h:96 | a non-negative value's digits land most significant first and their number is returned when they fit in fewer than maxlen cells; otherwise 0 is returned, the cells that were written hold the least significant digits, and no other cell changes |
| Utilities.Itoa | MotateProject/motate/MotateUtilities.h:87-97 | the decimal text (a '-' and the digits for a negative value) and its length when it fits in fewer than maxlen cells; otherwise 0, or 1 for a negative value whose '-' is written anyway; only the sign cell and at most maxlen - 1 digit cells change |
| Utilities.ItoaLenAsWrittenPositive | MotateProject/motate/MotateUtilities.h:100-106 | c_itoa_len as written counts one more than the digits for a positive value |
| Utilities.ItoaLenOverCounts | MotateProject/motate/MotateUtilities.h:100-106 | as written, every non-zero value gets one more than the length of its text |
| Utilities.ItoaLenFive | MotateProject/motate/MotateUtilities.h:100-106 | as written, 5 gives 2 though "5" has one character |
| Utilities.ItoaLen | MotateProject/motate/MotateUtilities.h:100-106 | the intended length: the digits plus one for a minus sign, 1 for 0 |
| Utilities.StrBuf.constructor | MotateProject/motate/MotateUtilities.h:220-228 | an empty buffer over the given storage and limit |
| Utilities.StrBuf.Copy | MotateProject/motate/MotateUtilities.h:249-253 | returns false without writing once w_ >= l_; otherwise copies with c_strcpy, the text and its NUL land at w_, w_ advances by the count, and no cell outside the copy changes; true iff the whole string fitted |
| Utilities.StrBuf.CopyInt | MotateProject/motate/MotateUtilities.h:264-267 | writes the decimal text when it fits and advances w_ by its length; when it does not, w_ advances by 1 for a negative value (its sign) and by 0 otherwise; false without writing once full; no cell outside c_itoa's footprint changes |
| BitManipulation.Ctz | MotateProject/motate/MotateUtilities.h:309 | for a non-zero word, the count of trailing zeros below 32: bit r is set and every bit below it is clear |
| BitManipulation.WrBitsFrame | MotateProject/motate/MotateUtilities.h:316-318 | Wr_bits changes only bits inside the mask and sets them to the value's bits |
| BitManipulation.ClrBitsFrame | MotateProject/motate/MotateUtilities.h:322-324 | Clr_bits clears the masked bits and keeps the others |
| BitManipulation.SetBitsFrame | MotateProject/motate/MotateUtilities.h:325-327 | Set_bits sets the masked bits and keeps the others |
| BitManipulation.TglBitsFrame | MotateProject/motate/MotateUtilities.h:328-330 | Tgl_bits flips exactly the masked bits |
| BitManipulation.BitfieldRoundTrip | MotateProject/motate/MotateUtilities.h:331-336 | Rd_bitfield(Wr_bitfield(x, m, v), m) == v when v fits the field |
| MotateJson.HashIsFold | MotateProject/motate/MotateJSON.h:53-67 | the recursive FNV-1a is the left fold of (val ^ c) * 0x01000193 mod 2^32 over the characters before the NUL |
| MotateJson.HashAppend | MotateProject/motate/MotateJSON.h:77-79 | hash("") is the offset basis 0x811C9DC5 and each added character folds once |
| MotateJson.LenOfText | MotateProject/motate/MotateJSON.h:86-95 | the internal strlen of a NUL-terminated text is its length |
| MotateJson.FindHash | MotateProject/motate/MotateJSON.h:518-536 | find(hash) gives the first binder with that hash, or none iff no binder has it |
| MotateJson.FindIndex | MotateProject/motate/MotateJSON.h:470-471 | find(i) gives the i-th binder when there is one |
| MotateJson.SearchExclusive | MotateProject/motate/MotateJSON.h:887-920 | an instruction holds a token or an index, never both, and clear() empties it |
| MotateJson.InstructionList.constructor | MotateProject/motate/MotateJSON.h:1190-1196 | all instructions clear and the position 0 |
| MotateJson.InstructionList.Next | MotateProject/motate/MotateJSON.h:1202-1209 | advances by one and returns false exactly when the position reaches the size |
| MotateJson.InstructionList.Reset | MotateProject/motate/MotateJSON.h:1211-1215 | clears entries pos_..1, keeps entry 0 and the rest, and leaves pos_ 0 |
| MotateJson.InstructionStack.constructor | MotateProject/motate/MotateJSON.h:993-1003 | the stack is empty (pointer -1) |
| MotateJson.InstructionStack.Push | MotateProject/motate/MotateJSON.h:1005-1013 | pushes one fresh entry and keeps those below |
| MotateJson.InstructionStack.SetDepth | MotateProject/motate/MotateJSON.h:1052-1092 | pops down to the requested depth and recomputes the in-array flag |
| MotateJson.SkipWhitespace | MotateProject/motate/MotateJSON.h:1269-1276 | the first character that is not space, tab, CR or LF |
| MotateJson.ParserBlankMissesCr | MotateProject/motate/MotateJSON.h:1390 | the parser's blank test lists tab twice and omits CR; the corrected test adds only CR |
| MotateJson.LowerAsWrittenOnlyA | MotateProject/motate/MotateJSON.h:1290-1291 | 'a' + ('A' - c) lands in a..z only for 'A'; 'B' becomes '`' and 'C' becomes '_' |
| MotateJson.Lower | MotateProject/motate/MotateJSON.h:1290-1291 | the intended lowercasing maps A..Z into a..z |
| MotateJson.LowerInjective | MotateProject/motate/MotateJSON.h:1290-1291 | the intended lowercasing keeps distinct letters distinct |
| MotateJson.NameEnd | MotateProject/motate/MotateJSON.h:1282-1294 | the first character outside [a-zA-Z0-9_] |
| MotateJson.NameBareMeaning | MotateProject/motate/MotateJSON.h:1282-1294 | the bare-name scan stops exactly at NameEnd and rewrites every uppercase letter before it with the corrected Lower (the same letter in lowercase), leaving every other character as it was |
| MotateJson.FindEndOfNameBare | MotateProject/motate/MotateJSON.h:1282-1294 | the in-place scan rewrites the buffer as the bare-name scan says, with the corrected Lower |
| MotateJson.Unquote | MotateProject/motate/MotateJSON.cpp:249-256 | the text of a quoted string up to its first unescaped '"', with \" read as '"' |
| MotateJson.StrEndAsWrittenLosesQuote | MotateProject/motate/MotateJSON.cpp:251-252 | as written, an escaped quote is written one slot too far left, so "\"" compacts to a NUL where the quote should be |
| MotateJson.StrEndUnquotes | MotateProject/motate/MotateJSON.cpp:249-256 | with the corrected slot, the scan succeeds iff the string is closed, compacts the unquoted text in place, puts NUL after it and returns that position |
| MotateJson.UnquoteEscape | MotateProject/motate/MotateJSON.cpp:249-256 | escaping a text and closing it with '"' unquotes back to the text |
| MotateJson.FindEndOfStrInPlace | MotateProject/motate/MotateJSON.cpp:249-256 | the in-place recursion rewrites the buffer as the string scan with the corrected escape slot (FindEndOfStr) says |
| MotateJson.NameScannableIff | MotateProject/motate/MotateJSON.cpp:272-274 | find_end_of_name succeeds iff the quoted string is closed or the bare name ends |
| MotateJson.FindEndOfName | MotateProject/motate/MotateJSON.cpp:272-274 | quoted names go to the corrected string scan from p+1, the others to the corrected bare scan |
| MotateJson.IntEnd | MotateProject/motate/MotateUtilities.h:286-294 | the number scan, like c_atof_int_, moves past the digits and the fraction it accepts |
| MotateJson.Step | MotateProject/motate/MotateJSON.h:1305-1400 | one pass of the corrected parser either stops or moves strictly forward, keeping the buffer and list sizes |
| MotateJson.ParseObject | MotateProject/motate/MotateJSON.h:1305-1400 | the corrected parser's loop always ends in a rejection or a stop, never in a further pass |
| MotateJson.StepRejects | MotateProject/motate/MotateJSON.h:1389-1397 | a pass of the corrected parser returns false exactly on a character it does not recognise (the NUL included), on a '}' below depth 0, and on a name not followed by ':' |
| MotateJson.QuotedKeyRejected | MotateProject/motate/MotateJSON.h:1335-1347 | a quoted key never reaches ':' because the string scan stops at the NUL it wrote, so the key is rejected |
| MotateJson.QuotedNameEndsInNul | MotateProject/motate/MotateJSON.cpp:255 | the string scan returns the position of the NUL it wrote |
| MotateJson.BareKeyLowercase | MotateProject/motate/MotateJSON.h:1335-1347 | a bare key followed by ':' is lowercased in place by the corrected Lower, its token points at it, and the ':' becomes the NUL ending it |
| MotateJson.KeyPass | MotateProject/motate/MotateJSON.h:1326-1350 | the key pass updates the buffer and the instruction list as the corrected key step says |
| MotateJson.Pass | MotateProject/motate/MotateJSON.h:1310-1398 | one pass of the loop updates pointer, depth, buffer and list as the corrected step says |
| MotateJson.ParseJsonObject | MotateProject/motate/MotateJSON.h:1395-1400 | the loop never returns true, and its final state is the one the corrected parser function gives |
| MotateJson.ParseJson | MotateProject/motate/MotateJSON.h:1403-1408 | parse_json resets the list, skips leading blanks and runs the corrected parser from depth -1; it returns false |
| Chains.WithoutMembers | MotateProject/motate/MotateSPI.h:273-295 | after removing a node, the list holds exactly the other nodes |
| Chains.WithoutAt | MotateProject/motate/MotateSPI.h:281-294 | in a list without repeats, removing a node is cutting it out at its position |
| Chains.AppendThenRemove | MotateProject/motate/MotateSPI.h:256-295 | removing a device just added restores the list |
| Chains.WithoutKeepsDistinct | MotateProject/motate/MotateSPI.h:273-295 | removal keeps a list free of repeats |
| Chains.MoveToFrontPermutes | MotateProject/motate/MotateSPI.h:331-341 | moving a message to the head is a permutation that puts it first |
| Chains.MoveToFrontKeepsOrder | MotateProject/motate/MotateSPI.h:336-340 | after the move, the other messages keep their relative order |
| Chains.IndexFrom | MotateProject/motate/MotateSPI.h:331-346 | the first position at or after `from` holding the value, or none iff there is none |
| Chains.Affinity | MotateProject/motate/MotateSPI.h:326-351 | with no transaction device the head goes; else the first message of that device, and none iff it has none |
| MotateSpi.Device.constructor | MotateProject/motate/MotateSPI.h:448-454 | a device holds its chip-select value and is unlinked |
| MotateSpi.Message.constructor | MotateProject/motate/MotateSPI.h:171-199 | a new message is unlinked, unowned and not sending |
| MotateSpi.Message.Setup | MotateProject/motate/MotateSPI.h:201-209 | setup stores its arguments and returns the message itself |
| MotateSpi.Choice | MotateProject/motate/MotateSPI.h:321-351 | nothing is sent while sending, with an empty queue, with a sending head, or when the transaction device has no message; else the first message of the transaction device, or the head |
| MotateSpi.Bus.constructor | MotateProject/motate/MotateSPI.h:248-254 | no devices, no messages, not sending, no transaction device |
| MotateSpi.Bus.AddDevice | MotateProject/motate/MotateSPI.h:256-271 | the device is appended at the tail, and nothing changes when it is already listed |
| MotateSpi.Bus.RemoveDevice | MotateProject/motate/MotateSPI.h:273-295 | the device is unlinked and its own next pointer left as it was; nothing changes when the list is empty or it is absent |
| MotateSpi.Bus.Enqueue | MotateProject/motate/MotateSPI.h:479-497 | the message gets the device and is appended at the queue tail |
| MotateSpi.Bus.QueueMessage | MotateProject/motate/MotateSPI.h:479-499 | the message is appended and the next message is then sent as sendNextMessageActual chooses over the longer queue |
| MotateSpi.Bus.Promote | MotateProject/motate/MotateSPI.h:331-346 | the first later message of the device moves to the head with the others in order; the queue is unchanged when there is none |
| MotateSpi.Bus.FindFor | MotateProject/motate/MotateSPI.h:331-337 | the walk finds the first message after the head owned by the device and its predecessor |
| MotateSpi.Bus.Relink | MotateProject/motate/MotateSPI.h:337-341 | the three pointer writes move the k-th message to the head |
| MotateSpi.Bus.SendNextMessageActual | MotateProject/motate/MotateSPI.h:321-359 | the message Choice picks, if any, is moved to the head and started: sending set, head sending, the transaction device set, the channel selected and one transfer of its buffers started |
| MotateSpi.Bus.Start | MotateProject/motate/MotateSPI.h:354-358 | starting sets sending, head->sending and the transaction device, selects its channel and starts one transfer |
| MotateSpi.Bus.SpiInterruptHandler | MotateProject/motate/MotateSPI.h:361-428 | nothing happens unless the transfer is done both ways; then the head is popped, the bus stops sending, deasserts if asked, ends the transaction if asked, and sends the next message |
| MotateSpi.Bus.Pop | MotateProject/motate/MotateSPI.h:391-425 | the head is unlinked with next_message cleared and sending false; immediate flags copied; the transaction ends iff immediate_ends_transaction |
| MotateTwi.Device.constructor | MotateProject/motate/MotateTWI.h:75-87 | a device is unlinked |
| MotateTwi.Message.constructor | MotateProject/motate/MotateTWI.h:89-121 | a new message is unlinked, unowned and Idle |
| MotateTwi.Message.Setup | MotateProject/motate/MotateTWI.h:123-132 | setup stores its arguments, sets the state to Setup and returns the message |
| MotateTwi.DoneRun | MotateProject/motate/MotateTWI.h:237-241 | the length of the leading run of Done messages |
| MotateTwi.Choice | MotateProject/motate/MotateTWI.h:242-271 | after the Done run: nothing when the queue is empty, the head is Sending, or the device has no message; else the device's first message, or the head |
| MotateTwi.MarkedIdle | MotateProject/motate/MotateTWI.h:323-335 | marking the first non-Done message Done leaves no Sending message and extends the Done run when one was sending |
| MotateTwi.Dropped | MotateProject/motate/MotateTWI.h:237-241 | dropping the Done run removes exactly that prefix and leaves the rest of the bus unchanged |
| MotateTwi.Launched | MotateProject/motate/MotateTWI.h:274-283 | starting the head makes the bus sending with the head's device as the transaction device |
| MotateTwi.SendNext | MotateProject/motate/MotateTWI.h:235-284 | the bus after sendNextMessageActual keeps its shape invariants |
| MotateTwi.Linked | MotateProject/motate/MotateTWI.h:414-436 | the bus after queueMessage links the message keeps its shape |
| MotateTwi.LinkedOwns | MotateProject/motate/MotateTWI.h:414-431 | an unqueued message is appended at the tail with its device; a queued one is not appended again |
| MotateTwi.Finished | MotateProject/motate/MotateTWI.h:316-360 | on transfer done the queue stays, the bus stops sending, and the first non-Done message becomes Done if Sending |
| MotateTwi.SendNextIdempotent | MotateProject/motate/MotateTWI.h:235-284 | calling sendNextMessageActual twice in a row has the effect of calling it once |
| MotateTwi.SendNextAffinity | MotateProject/motate/MotateTWI.h:245-271 | with a transaction device, only its message is started; if it has none, only the Done run is dropped |
| MotateTwi.SendNextHead | MotateProject/motate/MotateTWI.h:237-283 | with no transaction device, the first non-Done message is started after the Done run is dropped |
| MotateTwi.SendNextReorders | MotateProject/motate/MotateTWI.h:237-271 | the queue after sending is a permutation of the non-Done rest; the started message is first and the others keep their order |
| MotateTwi.FinishedLeaves | MotateProject/motate/MotateTWI.h:323-362 | a message that finishes becomes Done and is dropped by the next send |
| MotateTwi.Bus.constructor | MotateProject/motate/MotateTWI.h:160-168 | no devices, no messages, not sending, no transaction device |
| MotateTwi.Bus.AddDevice | MotateProject/motate/MotateTWI.h:170-185 | the device is appended at the tail, nothing changes when it is already listed |
| MotateTwi.Bus.RemoveDevice | MotateProject/motate/MotateTWI.h:187-209 | the device is unlinked and its own next pointer left as it was; nothing changes when the list is empty or it is absent |
| MotateTwi.Bus.Join | MotateProject/motate/MotateTWI.h:414-434 | the message gets the device and is appended unless already queued |
| MotateTwi.Bus.QueueMessage | MotateProject/motate/MotateTWI.h:414-436 | the bus becomes the link step followed by sendNextMessageActual |
| MotateTwi.Bus.SendNextMessageActual | MotateProject/motate/MotateTWI.h:235-284 | the linked queue and flags change exactly as SendNext says |
| MotateTwi.Bus.DropDone | MotateProject/motate/MotateTWI.h:237-241 | the loop unlinks each leading Done message and clears its next pointer |
| MotateTwi.Bus.Promote | MotateProject/motate/MotateTWI.h:250-266 | the first later message of the transaction device moves to the head; unchanged when there is none |
| MotateTwi.Bus.Start | MotateProject/motate/MotateTWI.h:274-283 | a Setup head becomes Sending and is started; the transaction device, channel and transfer record follow |
| MotateTwi.Bus.TwiInterruptHandler | MotateProject/motate/MotateTWI.h:286-362 | nothing changes unless the transfer is done both ways; then the bus becomes Finished followed by the next send |
| MotateTwi.Bus.FirstPending | MotateProject/motate/MotateTWI.h:323-328 | the walk skips the Done messages and finds the first other one |
| MotateTwi.Bus.MarkDone | MotateProject/motate/MotateTWI.h:329-356 | the message becomes Done, its immediate flags are copied, and the transaction ends iff immediate_ends_transaction |
| MotateUart.Int16 | MotateProject/motate/MotateUART.h:181-183 | the value an int16_t counter holds: in [-0x8000, 0x8000) and congruent to the count modulo 0x10000 |
| MotateUart.NulAt | MotateProject/motate/MotateUART.h:185-199 | the first NUL of a string: every byte before it is non-zero |
| MotateUart.Accepted | MotateProject/motate/MotateUART.h:192-204 | the acceptances before the first refusal: all taken, and the next one refused |
| MotateUart.Refusals | MotateProject/motate/MotateUART.h:200-202 | the number of refusals, 0 exactly when every answer is an acceptance |
| MotateUart.Transmitted | MotateProject/motate/MotateUART.h:189-205 | no more than the limit is sent; without autoFlush every sent byte was accepted and the loop stops at the first refusal; with autoFlush everything is sent except when length is 0 and the first byte is refused |
| MotateUart.Retries | MotateProject/motate/MotateUART.h:200-202 | no flush in the loop without autoFlush, or when every byte is taken at once |
| MotateUart.WriteLimit | MotateProject/motate/MotateUART.h:180-205 | the stop point lies within the string and, with length 0, before the NUL |
| MotateUart.WriteLimitStops | MotateProject/motate/MotateUART.h:189-205 | the loop stops at length, or with length 0 at the NUL or when the int16_t count of bytes still to write wraps back to 0 |
| MotateUart.WriteExact | MotateProject/motate/MotateUART.h:189-205 | with a length and autoFlush exactly length bytes are sent, NULs included |
| MotateUart.WriteStopsAtNul | MotateProject/motate/MotateUART.h:185-205 | with length 0 nothing past the NUL is sent, a refused first byte sends nothing even with autoFlush, and autoFlush sends the whole string |
| MotateUart.WriteCountWraps | MotateProject/motate/MotateUART.h:181-183 | a string of more than 0x10000 bytes sends 0x10000 of them; the int16_t count reads 0, and -0x8000 at 0x8000 |
| MotateUart.BufferLimit | MotateProject/motate/MotateUART.h:214-232 | the Buffer write stops at the end of the buffer or when the count of bytes still to write reaches 0 |
| MotateUart.BufferWriteSendsUncounted | MotateProject/motate/MotateUART.h:214-237 | a one-byte buffer with length 1 sends one byte, and a two-byte buffer with autoFlush sends two, though the call returns 0 |
| MotateUart.Drained | MotateProject/motate/MotateUART.h:260-265 | the bytes copied out of the overflow buffer: none is 0, and the drain stops at the length, an empty buffer or a 0 byte |
| MotateUart.DrainedGrows | MotateProject/motate/MotateUART.h:260-265 | bytes received into the overflow buffer later never shorten a drain and do not change one that stopped early |
| MotateUart.Consumed | MotateProject/motate/MotateUART.h:260-265 | the bytes the drain takes out of the buffer as written, within the buffer |
| MotateUart.ConsumedLosesByte | MotateProject/motate/MotateUART.h:260-265 | with one byte requested and two buffered, two are taken; with nothing requested, one is taken |
| MotateUart.ConsumedIntended | MotateProject/motate/MotateUART.h:260-265 | the bytes taken when the length is tested before the read |
| MotateUart.IntendedLosesNothing | MotateProject/motate/MotateUART.h:260-265 | with that order every byte taken is stored, except a 0 byte that ends the drain |
| MotateUart.ByteQueue.constructor | MotateProject/motate/MotateUART.h:213-214 | a Buffer holds the given bytes |
| MotateUart.Uart.constructor | MotateProject/motate/MotateUART.h:108-112 | nothing sent, flushed or buffered, no transfer requested, no callbacks |
| MotateUart.Uart.Init | MotateProject/motate/MotateUART.h:116-127 | a software RTS pin is raised |
| MotateUart.Uart.Write | MotateProject/motate/MotateUART.h:180-211 | an empty string sends nothing; otherwise the hardware receives exactly the Transmitted prefix, the result is its int16_t count, and the flushes are the retries plus one final flush when autoFlush sent something |
| MotateUart.Uart.SendBytes | MotateProject/motate/MotateUART.h:189-205 | the do-while loop sends the Transmitted prefix and flushes once per retry |
| MotateUart.Uart.WriteBufferAsWritten | MotateProject/motate/MotateUART.h:213-238 | the Buffer write sends and pops the Transmitted prefix of the buffer but returns 0 and never makes the final flush |
| MotateUart.Uart.WriteBuffer | MotateProject/motate/MotateUART.h:213-238 | the Buffer write with the count kept: it returns the int16_t count of the bytes sent and flushes at the end like the string write |
| MotateUart.Uart.SendBuffered | MotateProject/motate/MotateUART.h:218-232 | the peek/writeByte/pop loop sends and pops the Transmitted prefix of the buffer and flushes once per retry |
| MotateUart.Uart.ReadOverflow | MotateProject/motate/MotateUART.h:261 | the overflow buffer yields its oldest byte, or -1 when empty |
| MotateUart.Uart.DrainOverflow | MotateProject/motate/MotateUART.h:260-265 | the Drained bytes land at the buffer position in order, the position advances by their number, nothing else in the buffer changes, and the Consumed bytes leave the overflow buffer |
| MotateUart.Uart.StartRxTransfer | MotateProject/motate/MotateUART.h:257-286 | after the drain: a filled request records the manual position and returns false; otherwise the rest is requested from the hardware and its answer returned; RX-ready is on and a software RTS high exactly when false is returned |
| MotateUart.Uart.HandleInterrupt | MotateProject/motate/MotateUART.h:317-352 | a received byte is buffered; a done transfer with a callback disables its interrupt and calls it; a receive done raises a software RTS; a CTS change is reported only while connected |
| MotateUart.Uart.OnRxTransferDone | MotateProject/motate/MotateUART.h:334-343 | a software RTS rises; with a callback, RX-done is disabled, RX-ready enabled and the callback called |
| MotateUart.Uart.SetConnectionCallback | MotateProject/motate/MotateUART.h:243-255 | the CTS interrupt is on iff a callback is set, which is called with true at once when connected |
| MotateUart.Uart.SetRxTransferDoneCallback | MotateProject/motate/MotateUART.h:295-297 | only the callback changes |
| MotateUart.Uart.SetTxTransferDoneCallback | MotateProject/motate/MotateUART.h:311-313 | only the callback changes |
| SamTimers.SysTickEvent.constructor | MotateProject/motate/Atmel_sam_common/SamTimers.h:1147-1150 | a new event is unlinked |
| SamTimers.SysTick.constructor | MotateProject/motate/Atmel_sam_common/SamTimers.h:1156-1164 | the tick count starts at 0 and the event list is empty |
| SamTimers.SysTick.Increment | MotateProject/motate/Atmel_sam_common/SamTimers.h:1179-1181 | one more tick, wrapping from 2^32 - 1 to 0 |
| SamTimers.SysTick.RegisterEventAsWritten | MotateProject/motate/Atmel_sam_common/SamTimers.h:1183-1196 | on an empty list the event becomes the head with its old next pointer kept; otherwise it is appended at the tail unless already listed |
| SamTimers.SysTick.RegisterEvent | MotateProject/motate/Atmel_sam_common/SamTimers.h:1183-1196 | registration with the next pointer cleared: the list stays well linked and gains the event at the tail unless already listed |
| SamTimers.SysTick.AppendEvent | MotateProject/motate/Atmel_sam_common/SamTimers.h:1188-1195 | the walk to the tail returns early on a listed event and otherwise links the event at the tail with a null next |
| SamTimers.SysTick.UnregisterEvent | MotateProject/motate/Atmel_sam_common/SamTimers.h:1198-1211 | the event leaves the list, every other event keeps its order, the event keeps its own next pointer, and an unlisted event changes nothing |
| SamTimers.SysTick.UnlinkFirst | MotateProject/motate/Atmel_sam_common/SamTimers.h:1199-1202 | unlinking the head leaves the rest of the list |
| SamTimers.SysTick.UnlinkAfter | MotateProject/motate/Atmel_sam_common/SamTimers.h:1204-1208 | bypassing the event after position k removes exactly that event |
| SamTimers.SysTick.HandleEvents | MotateProject/motate/Atmel_sam_common/SamTimers.h:1213-1219 | every registered callback is called once, in list order |
| SamTimers.StaleLinkResurrects | MotateProject/motate/Atmel_sam_common/SamTimers.h:1183-1211 | registering a, b, unregistering both and registering a again leaves b linked after a |
| SamTimers.RegisterAfterEmptying | MotateProject/motate/Atmel_sam_common/SamTimers.h:1183-1211 | with the next pointer cleared the same calls leave the list [a] |
| SamTimers.Elapsed | MotateProject/motate/Atmel_sam_common/SamTimers.h:1298 | the unsigned difference of two ticks: now - start, plus 2^32 when the count wrapped |
| SamTimers.Timeout.constructor | MotateProject/motate/Atmel_sam_common/SamTimers.h:1288 | a new timeout is not set |
| SamTimers.Timeout.Set | MotateProject/motate/Atmel_sam_common/SamTimers.h:1301-1304 | the timeout starts now; it is set iff now is not 0 and then past exactly when more than delay ticks have elapsed |
| SamTimers.Timeout.Clear | MotateProject/motate/Atmel_sam_common/SamTimers.h:1306-1309 | a cleared timeout is not set and never past |
| SamTimers.TimeoutAtZeroNeverPast | MotateProject/motate/Atmel_sam_common/SamTimers.h:1290-1299 | a timeout whose start tick is 0 is never past, whatever the delay |
| SamTimers.ElapsedAcrossWrap | MotateProject/motate/Atmel_sam_common/SamTimers.h:1298 | the elapsed count is right across a wrap of the tick counter |
| SamTimers.TcInterruptCause | MotateProject/motate/Atmel_sam_common/SamTimers.h:626-646 | overflow iff an overflow or RC compare bit; channel 0 iff RA without those, channel 1 iff RB without those and RA; unknown iff no bit is set |
| SamTimers.PwmInterruptCause | MotateProject/motate/Atmel_sam_common/SamTimers.h:1116-1126 | overflow iff the first cached status is non-zero; unknown iff both are zero |
| SamTimers.CountFrequency | MotateProject/motate/Atmel_sam_common/SamTimers.h:327-328 | the up-down modes count at half the frequency, the others at the frequency |
| SamTimers.FirstFit | MotateProject/motate/Atmel_sam_common/SamTimers.h:337-377 | the divisor chosen fits and none before it does; none is chosen iff no divisor fits |
| SamTimers.FitBounds | MotateProject/motate/Atmel_sam_common/SamTimers.h:337-394 | a fitting divisor gives an RC in 1..0xFFFF, so the returned frequency needs no division by zero |
| SamTimers.TcTop | MotateProject/motate/Atmel_sam_common/SamTimers.h:389-405 | RC is in 1..0xFFFF |
| SamTimers.TcSetupMeaning | MotateProject/motate/Atmel_sam_common/SamTimers.h:316-408 | kFrequencyUnattainable iff no divisor fits; otherwise the first fitting divisor, RC in 1..0xFFFF and 0xFFFF outside the to-match modes, and the frequency that divisor and RC give |
| SamTimers.PwmPrescalerSearch | MotateProject/motate/Atmel_sam_common/SamTimers.h:942-961 | the index is the first whose clock brackets the frequency, or 10 with every earlier one failing; the period is that clock over the frequency; the result is the clock times the period wrapped to 32 bits and read as an int32_t |
| SamTimers.AsInt32 | MotateProject/motate/Atmel_sam_common/SamTimers.h:961 | a uint32_t read as int32_t: a value in the int32_t range congruent to it modulo 2^32 |
| SamTimers.ActualFrequency | MotateProject/motate/Atmel_sam_common/SamTimers.h:957-961 | the frequency the chosen clock and period give, clock over period, which the return is evidently meant to be: at least the frequency asked for and below twice it |
| SamTimers.PeriodFrequency | MotateProject/motate/Atmel_sam_common/SamTimers.h:957-961 | a period of clock / frequency, when non-zero, runs at between the frequency and twice it |
| SamTimers.PwmResultWraps | MotateProject/motate/Atmel_sam_common/SamTimers.h:942-961 | 84 MHz asked for 1 kHz: index 1 brackets, the period is 42000, the return as written is -1231558656 while the frequency achieved is 1000 |
| SamTimers.PwmTopBounds | MotateProject/motate/Atmel_sam_common/SamTimers.h:942-956 | a bracketing clock gives a period of at least 1 and below 0x20000 |
| SamTimers.PwmTopCanExceed16Bits | MotateProject/motate/Atmel_sam_common/SamTimers.h:946-954 | the bracket test accepts a period above 0xFFFF |
| SamTimers.PwmCountFrequency | MotateProject/motate/Atmel_sam_common/SamTimers.h:898-899 | the center-aligned mode counts at half the frequency |
| SamTimers.PwmSetModeAndFrequency | MotateProject/motate/Atmel_sam_common/SamTimers.h:883-961 | the input-capture modes are unattainable (no result); the others run the prescaler search on the (halved when center aligned) frequency and return its index, period and wrapped product |
| SamTimers.DivASearchAsWritten | MotateProject/motate/Atmel_sam_common/SamTimers.h:914-919 | the clock-A search as written finds the first index whose prescaler is at most 255, and runs past the 11-entry table (None) exactly when every prescaler is above 255 |
| SamTimers.DivASearchPassesTable | MotateProject/motate/Atmel_sam_common/SamTimers.h:914-919 | an 84 MHz clock asked for 1 Hz has prescaler 82031 at index 10 and every prescaler above 255, so the search as written reads divisors[11] |
| SamTimers.DivASearch | MotateProject/motate/Atmel_sam_common/SamTimers.h:914-919 | the bounded clock-A search: the first index whose prescaler is at most 255, or the last index, with every earlier prescaler above 255 |
| SamTimers.PwmSync.SetSyncMode | MotateProject/motate/Atmel_sam_common/SamTimers.h:802-813 | the update mode is stored, the period count is clamped into 1..15 and stored minus one, and the update is unlocked |
| SamTwi.PackAddress | MotateProject/motate/Atmel_sam_common/SamTWI.h:121-151 | setAddress refuses exactly a 10-bit device address with a three-byte internal address |
| SamTwi.PackedFits | MotateProject/motate/Atmel_sam_common/SamTWI.h:128-141 | the packed values fit the 7-bit DADR, 2-bit IADRSZ and 24-bit IADR fields |
| SamTwi.TenBitRoundTrip | MotateProject/motate/Atmel_sam_common/SamTWI.h:128-135 | a 10-bit address is recoverable: DADR holds the 0b011110 marker and bits 9..8, IADR's low byte bits 7..0 and its upper bytes the internal address, one byte longer |
| SamTwi.SevenBitRoundTrip | MotateProject/motate/Atmel_sam_common/SamTWI.h:136-141 | a 7-bit address keeps its low seven bits, the internal address its low three bytes and its size |
| SamTwi.TenBitInjective | MotateProject/motate/Atmel_sam_common/SamTWI.h:128-135 | two different 10-bit addresses never pack to the same registers |
| SamTwi.Sub32 | MotateProject/motate/Atmel_sam_common/SamTWI.h:175-198 | the uint32_t subtraction wraps by 2^32 exactly when it would go negative |
| SamTwi.Quotient32 | MotateProject/motate/Atmel_sam_common/SamTWI.h:175-198 | the unsigned quotient stays in 32 bits |
| SamTwi.Scaled | MotateProject/motate/Atmel_sam_common/SamTWI.h:179-205 | the divider loop never takes CKDIV past 7 nor below where it started |
| SamTwi.ScaledMeaning | MotateProject/motate/Atmel_sam_common/SamTWI.h:179-205 | the loop stops at the smallest CKDIV at which the divider halved that often fits 8 bits, or at 7 |
| SamTwi.ScaleDivider | MotateProject/motate/Atmel_sam_common/SamTWI.h:179-205 | the halving loop computes the divider and CKDIV that the closed form describes |
| SamTwi.FastClockSkew | MotateProject/motate/Atmel_sam_common/SamTWI.h:173-196 | at 200 MHz and 400 kHz the written CWGR is CLDIV 128, CHDIV 237, CKDIV 1, where halving both dividers gives 128, 118, 1 |
| SamTwi.ScaledPairMeaning | MotateProject/motate/Atmel_sam_common/SamTWI.h:173-196 | both dividers are divided by the same 2^CKDIV, the smallest at which both fit 8 bits (or 7) |
| SamTwi.SlowClockMeaning | MotateProject/motate/Atmel_sam_common/SamTWI.h:197-210 | up to 384 kHz both periods use the divider over 2^CKDIV, with CKDIV the smallest that fits (or 7) |
| SamTwi.FastClockMeaning | MotateProject/motate/Atmel_sam_common/SamTWI.h:173-196 | above 384 kHz each register holds its own divider over one shared, smallest fitting 2^CKDIV, so the two periods keep their ratio |
| SamTwi.HintCause | MotateProject/motate/Atmel_sam_common/SamTWI.h:234-248 | a DMA hint sets exactly the transfer-done and error flags whose bits it has, and nothing from the status register |
| SamTwi.StatusCause | MotateProject/motate/Atmel_sam_common/SamTWI.h:251-271 | TXRDY, RXRDY and NACK are copied; TXCOMP only with TXRDY and its interrupt enabled; no DMA flag |
| SamTwi.CauseEmpty | MotateProject/motate/Atmel_sam_common/SamTWI.h:219-272 | the cause is empty iff a hint has none of its four bits, or, without a hint, none of TXRDY, RXRDY and NACK is set |
| SamTwi.MessageSlotsAvailable | MotateProject/motate/Atmel_sam_common/SamTWI.h:386-391 | one slot iff the DMA is done writing and reading, otherwise none |
| SamTwiTransfer.Range | MotateProject/motate/Atmel_sam_common/SamTWI.h:551-562 | the positions a DMA transfer covers, one per byte |
| SamTwiTransfer.RangeSplit | MotateProject/motate/Atmel_sam_common/SamTWI.h:551-562 | a manual prefix followed by a DMA range is the whole range |
| SamTwiTransfer.Start | MotateProject/motate/Atmel_sam_common/SamTWI.h:422-473 | refused iff no buffer, busy or size 0, and then nothing changes; a read sets MREAD, sends START (START and STOP for one byte) and picks its state by size; a write waits for TXRDY; both enable NACK |
| SamTwiTransfer.Prehandle | MotateProject/motate/Atmel_sam_common/SamTWI.h:476-720 | an error or NACK goes Idle with every interrupt off and the cause kept; a spurious interrupt clears the cause; a transfer keeps its direction, and one that goes Idle has reported an error or handed over (filled) all its bytes |
| SamTwiTransfer.CasesAdvances | MotateProject/motate/Atmel_sam_common/SamTWI.h:521-719 | the chain of cases keeps the invariant and concludes any transfer it ends |
| SamTwiTransfer.TxCasesAdvances | MotateProject/motate/Atmel_sam_common/SamTWI.h:625-719 | the write cases keep the invariant and conclude any write they end |
| SamTwiTransfer.RxFirstByteAdvances | MotateProject/motate/Atmel_sam_common/SamTWI.h:521-571 | the first-byte case keeps the invariant: positions filled by hand or by the DMA are exactly those before the new position |
| SamTwiTransfer.RxMisalignedAdvances | MotateProject/motate/Atmel_sam_common/SamTWI.h:538-545 | reading one misaligned byte by hand fills exactly the next position |
| SamTwiTransfer.RxDmaStartAdvances | MotateProject/motate/Atmel_sam_common/SamTWI.h:551-562 | the DMA read takes all but the last two positions |
| SamTwiTransfer.RxDmaDoneAdvances | MotateProject/motate/Atmel_sam_common/SamTWI.h:573-587 | the DMA's read-done keeps the invariant |
| SamTwiTransfer.RxNextToLastAdvances | MotateProject/motate/Atmel_sam_common/SamTWI.h:589-604 | reading the next-to-last byte fills its position |
| SamTwiTransfer.RxLastCharAdvances | MotateProject/motate/Atmel_sam_common/SamTWI.h:606-621 | reading the last byte fills the whole buffer and reports the read done |
| SamTwiTransfer.TxFirstByteAdvances | MotateProject/motate/Atmel_sam_common/SamTWI.h:625-641 | sending the first byte by hand keeps the invariant |
| SamTwiTransfer.TxSendingFirstByteAdvances | MotateProject/motate/Atmel_sam_common/SamTWI.h:643-668 | the DMA write takes every position but the last, or a DMA refusal reports a transmit error |
| SamTwiTransfer.TxDmaDoneAdvances | MotateProject/motate/Atmel_sam_common/SamTWI.h:670-685 | the DMA's write-done keeps the invariant |
| SamTwiTransfer.TxSwallowDoneAdvances | MotateProject/motate/Atmel_sam_common/SamTWI.h:687-690 | swallowing TXCOMP keeps the invariant |
| SamTwiTransfer.TxLastByteAdvances | MotateProject/motate/Atmel_sam_common/SamTWI.h:692-708 | writing the last byte with STOP hands over its position |
| SamTwiTransfer.TxFinishAdvances | MotateProject/motate/Atmel_sam_common/SamTWI.h:710-719 | the final TXRDY ends the write with every position handed over and the write reported done |
| SamTwiTransfer.Handle | MotateProject/motate/Atmel_sam_common/SamTWI.h:92-107 | an error or NACK is always delivered; nothing is delivered while Idle; a transfer that ends delivers exactly one cause, reporting an error or its transfer done |
| SamTwiTransfer.ConcludedReported | MotateProject/motate/Atmel_sam_common/SamTWI.h:98 | a concluded transfer leaves a non-empty cause, so the handler is called |
| SamTwiTransfer.Run | MotateProject/motate/Atmel_sam_common/SamTWI.h:92-107 | a run of interrupts keeps the invariant and delivers at most one cause per interrupt |
| SamTwiTransfer.TxFirstByteStep | MotateProject/motate/Atmel_sam_common/SamTWI.h:625-641 | TXRDY moves a fresh write to TXSendingFirstByte above the threshold, otherwise on to the STOP |
| SamTwiTransfer.TxSecondByteStep | MotateProject/motate/Atmel_sam_common/SamTWI.h:643-668 | the next TXRDY starts the DMA, or, with one byte left, sends it with the STOP |
| SamTwiTransfer.TxDmaStartStep | MotateProject/motate/Atmel_sam_common/SamTWI.h:643-662 | with more than one byte left and the DMA accepting, the write moves to TXDMAStarted |
| SamTwiTransfer.TxOnlyLastStep | MotateProject/motate/Atmel_sam_common/SamTWI.h:663-708 | with one byte left, TXRDY leads straight to the last byte and the STOP |
| SamTwiTransfer.TxDmaDoneStep | MotateProject/motate/Atmel_sam_common/SamTWI.h:670-708 | the DMA's write-done with TXRDY already set hands the last position to THR, issues the STOP, turns the DMA's done interrupt off and TXRDY's on, and waits in TXWaitingForTXReady2 |
| SamTwiTransfer.TxFinishStep | MotateProject/motate/Atmel_sam_common/SamTWI.h:710-719 | the final TXRDY delivers TXRDY and TxTransferDone and leaves the driver Idle |
| SamTwiTransfer.RxFirstByteStep | MotateProject/motate/Atmel_sam_common/SamTWI.h:521-565 | an aligned RXRDY hands all but the last two bytes to the DMA without touching the buffer or sending a command |
| SamTwiTransfer.RxDmaDoneStep | MotateProject/motate/Atmel_sam_common/SamTWI.h:573-604 | the DMA's read-done with RXRDY set sends STOP and reads the next-to-last byte |
| SamTwiTransfer.RxLastCharStep | MotateProject/motate/Atmel_sam_common/SamTWI.h:606-621 | RXRDY in the last state reads the last byte, fills the buffer and delivers RxTransferDone |
| SamTwiTransfer.RunQuietStep | MotateProject/motate/Atmel_sam_common/SamTWI.h:98 | a step that delivers nothing adds nothing to the run's deliveries |
| SamTwiTransfer.RunLastStep | MotateProject/motate/Atmel_sam_common/SamTWI.h:92-107 | a run of one interrupt is one handleInterrupts |
| SamTwiTransfer.WriteEndsOnTxReady | MotateProject/motate/Atmel_sam_common/SamTWI.h:710-719 | from TXWaitingForTXReady2, one TXRDY ends the write |
| SamTwiTransfer.WriteEndsAfterDma | MotateProject/motate/Atmel_sam_common/SamTWI.h:670-719 | from TXDMAStarted, the DMA's done and one TXRDY end the write |
| SamTwiTransfer.WriteEndsAfterFirstByte | MotateProject/motate/Atmel_sam_common/SamTWI.h:643-719 | from TXSendingFirstByte, the remaining interrupts end the write |
| SamTwiTransfer.WriteEnds | MotateProject/motate/Atmel_sam_common/SamTWI.h:625-719 | from TXReadyToSendFirstByte, a write ends Idle with its positions handed over and the write reported done |
| SamTwiTransfer.WriteSendsBuffer | MotateProject/motate/Atmel_sam_common/SamTWI.h:625-719 | (corrected threshold) a write hands every position of the buffer to the transmitter, in order and once each, and reports the write done |
| SamTwiTransfer.TwoByteWriteSendsOneByte | MotateProject/motate/Atmel_sam_common/SamTWI.h:629 | as written, a two-byte write hands over only byte 0 and still reports the write done |
| SamTwiTransfer.ReadEndsAfterDma | MotateProject/motate/Atmel_sam_common/SamTWI.h:573-621 | from RXDMAStarted, the DMA's done and one RXRDY fill the buffer, write the last two bytes from RHR and send STOP |
| SamTwiTransfer.ReadEndsFromStart | MotateProject/motate/Atmel_sam_common/SamTWI.h:521-621 | an aligned read from its first byte fills the buffer and delivers RxTransferDone after three interrupts |
| SamTwiTransfer.ReadFillsBuffer | MotateProject/motate/Atmel_sam_common/SamTWI.h:521-621 | a read of three or more bytes into an aligned buffer fills every position, reads the last two from RHR, sends START then STOP, and reports the read done |
| SamTwiTransfer.ReadStarts | MotateProject/motate/Atmel_sam_common/SamTWI.h:437-458 | a read of three or more bytes starts in RXReadingFirstByte at position 0 with START sent |
| SamTwiTransfer.MisalignedReadSilencesRxReady | MotateProject/motate/Atmel_sam_common/SamTWI.h:521-545 | a misaligned read reads one byte and returns with RXRDY's interrupt disabled and no DMA started, so it stays in RXReadingFirstByte until a NACK |
| SamTwiTransfer.TwiHardware.constructor | MotateProject/motate/Atmel_sam_common/SamTWI.h:68-79 | the driver starts Idle with no buffer, master mode disabled |
| SamTwiTransfer.TwiHardware.SetAddress | MotateProject/motate/Atmel_sam_common/SamTWI.h:121-151 | refused iff PackAddress refuses, and then nothing changes; otherwise the packed registers are written, MREAD cleared, the internal-address bookkeeping zeroed and master mode enabled |
| SamTwiTransfer.TwiHardware.SetSpeed | MotateProject/motate/Atmel_sam_common/SamTWI.h:160-211 | above 400 kHz nothing changes; above 384 kHz the corrected fast-mode registers; otherwise the slow-mode registers; nothing else changes |
| SamTwiTransfer.TwiHardware.StartTransfer | MotateProject/motate/Atmel_sam_common/SamTWI.h:422-473 | the fields change as Start says, and an accepted transfer takes the caller's array as its buffer |
| SamTwiTransfer.TwiHardware.Arm | MotateProject/motate/Atmel_sam_common/SamTWI.h:425-470 | the accepted branch of startTransfer |
| SamTwiTransfer.TwiHardware.TakeBuffer | MotateProject/motate/Atmel_sam_common/SamTWI.h:425-429 | the buffer and size are taken and the DMA's interrupts stopped |
| SamTwiTransfer.TwiHardware.BeginRead | MotateProject/motate/Atmel_sam_common/SamTWI.h:427-458 | MREAD, the START command and the state by size, and RXRDY and NACK enabled |
| SamTwiTransfer.TwiHardware.PrehandleInterrupt | MotateProject/motate/Atmel_sam_common/SamTWI.h:476-720 | the fields and the cause change as Prehandle says |
| SamTwiTransfer.TwiHardware.CasesOnFields | MotateProject/motate/Atmel_sam_common/SamTWI.h:521-719 | the cases run in the driver's order on the fields |
| SamTwiTransfer.TwiHardware.TxCasesOnFields | MotateProject/motate/Atmel_sam_common/SamTWI.h:625-719 | the write cases run in the driver's order on the fields |
| SamTwiTransfer.TwiHardware.RxFirstByteCase | MotateProject/motate/Atmel_sam_common/SamTWI.h:521-571 | the first-byte case on the fields |
| SamTwiTransfer.TwiHardware.RxReadUnaligned | MotateProject/motate/Atmel_sam_common/SamTWI.h:538-545 | one byte from RHR into the buffer, position up and size down, RXRDY's interrupt off |
| SamTwiTransfer.TwiHardware.RxStartDma | MotateProject/motate/Atmel_sam_common/SamTWI.h:547-562 | the DMA takes all but the last two bytes, or its refusal reports a receive error |
| SamTwiTransfer.TwiHardware.RxDmaDoneCase | MotateProject/motate/Atmel_sam_common/SamTWI.h:573-587 | the DMA's read-done case on the fields |
| SamTwiTransfer.TwiHardware.RxNextToLastCase | MotateProject/motate/Atmel_sam_common/SamTWI.h:589-604 | STOP, then the next-to-last byte read into the buffer |
| SamTwiTransfer.TwiHardware.ReadNextByte | MotateProject/motate/Atmel_sam_common/SamTWI.h:600 | the byte is stored at the current position, which is marked filled, and the position moves on |
| SamTwiTransfer.TwiHardware.RxLastCharCase | MotateProject/motate/Atmel_sam_common/SamTWI.h:606-621 | the last byte is stored and the read reported done |
| SamTwiTransfer.TwiHardware.TxFirstByteCase | MotateProject/motate/Atmel_sam_common/SamTWI.h:625-641 | the first-byte case of a write on the fields |
| SamTwiTransfer.TwiHardware.TxSendingFirstByteCase | MotateProject/motate/Atmel_sam_common/SamTWI.h:643-668 | the case after the first byte on the fields |
| SamTwiTransfer.TwiHardware.TxStartDma | MotateProject/motate/Atmel_sam_common/SamTWI.h:646-662 | the DMA takes all but the last byte, or its refusal reports a transmit error |
| SamTwiTransfer.TwiHardware.TxDmaDoneCase | MotateProject/motate/Atmel_sam_common/SamTWI.h:670-685 | the DMA's write-done case on the fields |
| SamTwiTransfer.TwiHardware.TxSwallowDoneCase | MotateProject/motate/Atmel_sam_common/SamTWI.h:687-690 | TXCOMP and the DMA's done are dropped while waiting for TXRDY, changing no field |
| SamTwiTransfer.TwiHardware.TxLastByteCase | MotateProject/motate/Atmel_sam_common/SamTWI.h:692-708 | the last byte to THR with the STOP |
| SamTwiTransfer.TwiHardware.TxFinishCase | MotateProject/motate/Atmel_sam_common/SamTWI.h:710-719 | the write reported done, the driver Idle |
| SamTwiTransfer.TwiHardware.HandleInterrupts | MotateProject/motate/Atmel_sam_common/SamTWI.h:92-107 | the fields and the delivered causes are those of Handle on the decoded cause, and the invariant is kept |
| SamSpi.Clamp | MotateProject/motate/Atmel_sam_common/SamSPI.h:149-153 | the divider is pulled into 1..255 and kept when already there |
| SamSpi.DividerAsWrittenAtOrAbove | MotateProject/motate/Atmel_sam_common/SamSPI.h:148-155 | rounded down, an in-range divider gives a serial clock at or above the baud asked for |
| SamSpi.DividerAsWrittenTooFast | MotateProject/motate/Atmel_sam_common/SamSPI.h:146-148 | at 120 MHz a request for 50 MHz gets divider 2, a 60 MHz serial clock |
| SamSpi.DividerAtOrBelow | MotateProject/motate/Atmel_sam_common/SamSPI.h:146-155 | the rounded-up divider is in 1..255, gives the fastest serial clock not above the baud when one exists, and 255 otherwise |
| SamSpi.Mul32 | MotateProject/motate/Atmel_sam_common/SamSPI.h:207-228 | the uint32_t product equals the true one below 2^32 |
| SamSpi.DelayNearest | MotateProject/motate/Atmel_sam_common/SamSPI.h:203-207 | a delay is the nearest whole number of clock cycles to the requested nanoseconds |
| SamSpi.DelayAsWrittenExactBelowOverflow | MotateProject/motate/Atmel_sam_common/SamSPI.h:207-228 | while the product fits 32 bits the delay as written is the intended one |
| SamSpi.DelayAsWrittenWraps | MotateProject/motate/Atmel_sam_common/SamSPI.h:207 | 1000 ns at 120 MHz is 120 cycles, but the wrapped product gives 4 |
| SamSpi.Field8 | MotateProject/motate/Atmel_sam_common/SamSPI.h:217-235 | a register field keeps the low eight bits of its value |
| SamSpi.BitsMeaning | MotateProject/motate/Atmel_sam_common/SamSPI.h:167-197 | the word-size field is the requested 9..16 bits, and 8 bits for every other option value |
| SamSpi.NewOptionsMeaning | MotateProject/motate/Atmel_sam_common/SamSPI.h:143-240 | CPOL iff the polarity is reversed, NCPHA iff the phase is not, CSAAT set and CSNAAT clear, a divider in 1..255, 8-bit delay fields |
| SamSpi.ModesDistinct | MotateProject/motate/Atmel_sam_common/SamSPI.h:157-165 | the four SPI modes give four distinct CPOL/NCPHA pairs |
| SamSpi.InterruptCauseMeaning | MotateProject/motate/Atmel_sam_common/SamSPI.h:314-345 | TxReady iff TDRE is both enabled and set, RxReady iff RDRF is, the transfer-done flags iff the DMA says so, and no other flag |
| SamSpi.CsValue | MotateProject/motate/Atmel_sam_common/SamSPI.h:495-502 | the line value fits the four chip-select lines |
| SamSpi.CsValueBits | MotateProject/motate/Atmel_sam_common/SamSPI.h:495-502 | line j is driven iff some bit of cs that is set belongs to a pin on line j |
| SamSpi.DecodeCs | MotateProject/motate/Atmel_sam_common/SamSPI.h:495-502 | reading the lines back gives a four-bit cs number |
| SamSpi.CsRoundTrip | MotateProject/motate/Atmel_sam_common/SamSPI.h:495-502 | with four distinct pins the line value gives back cs's four bits |
| SamSpi.CsValueInjective | MotateProject/motate/Atmel_sam_common/SamSPI.h:495-502 | with distinct pins, different cs numbers drive different lines |
| SamSpi.GetCs | MotateProject/motate/Atmel_sam_common/SamSPI.h:510-517 | the chip select holds computeCsValue's value and a register number below 4 |
| SamSpi.CsNumberShared | MotateProject/motate/Atmel_sam_common/SamSPI.h:513-517 | chip selects that differ only in lines 0 and 1 share one SPI_CSR register |
| SamSpi.PriorityLevel | MotateProject/motate/Atmel_sam_common/SamSPI.h:374-389 | the NVIC priority is that of the highest priority flag given, and none when no priority flag is set |
| SamSpi.SpiHardware.constructor | MotateProject/motate/Atmel_sam_common/SamSPI.h:63-69 | after the software reset the peripheral is disabled with every register cleared |
| SamSpi.SpiHardware.SetUsingCsDecoder | MotateProject/motate/Atmel_sam_common/SamSPI.h:102-108 | PCSDEC follows the argument and nothing else changes |
| SamSpi.SpiHardware.SetChannel | MotateProject/motate/Atmel_sam_common/SamSPI.h:122-141 | the channel's CSAAT or CSNAAT (exactly one) is set and its other settings kept, PCS selects the channel, the peripheral is enabled, and the call succeeds |
| SamSpi.SpiHardware.SetChannelOptions | MotateProject/motate/Atmel_sam_common/SamSPI.h:143-241 | the channel's SPI_CSR is replaced by the options built from zero, DLYBCS takes the chip-select gap, and no other channel changes |
| SamSpi.SpiHardware.SetInterrupts | MotateProject/motate/Atmel_sam_common/SamSPI.h:348-395 | TDRE, RDRF and the DMA's done interrupts follow their flags, the highest priority given wins, and the interrupt is enabled; Off only disables it |
| SamSpi.SpiHardware.StartTransfer | MotateProject/motate/Atmel_sam_common/SamSPI.h:428-461 | the DMA is asked for the receive side, and for the transmit side unless a receive buffer was refused; the transfer is under way iff the receive buffer was accepted or, without one, the transmit buffer was; only then are the DMA and the peripheral enabled |
| SamDma.DoneReadingMeaning | MotateProject/motate/Atmel_sam_common/SamDMAPDC.h:112-131 | a receive is done iff RPR is zero or RCR is; the next slot is free iff RNPR or RNCR is zero |
| SamDma.LeftIncludingNext | MotateProject/motate/Atmel_sam_common/SamDMAPDC.h:112-119 | counting the next slot adds RNCR to RCR, and nothing is left iff both are zero |
| SamDma.IdleIsDone | MotateProject/motate/Atmel_sam_common/SamDMAPDC.h:77-88 | after reset nothing is left in either slot and both are free |
| SamDma.Flushed | MotateProject/motate/Atmel_sam_common/SamDMAPDC.h:108-111 | flushRead leaves nothing to read in either slot and keeps the pointers, the enable and the interrupt |
| SamDma.StartSlotMeaning | MotateProject/motate/Atmel_sam_common/SamDMAPDC.h:229-246 | a two-slot start succeeds iff the channel is idle and the buffer non-empty, or it is busy and a requested next slot is free; then the buffer is queued and the other slot kept; a refused start changes no counter and no enable |
| SamDma.StartSlotInterrupts | MotateProject/motate/Atmel_sam_common/SamDMA.h:182-196 | a start that handles interrupts leaves the done interrupt on; SamDMAPDC.h's transmit start without them leaves it off |
| SamDma.Settled | MotateProject/motate/Atmel_sam_common/SamDMAPDC.h:160-168 | the extension loop stops at the first read that shows no advance, every earlier read having advanced |
| SamDma.SettlePosition | MotateProject/motate/Atmel_sam_common/SamDMAPDC.h:160-168 | the loop ends on the settled position with the counter from it to the buffer's end |
| SamDma.StartRxEmpty | MotateProject/motate/Atmel_sam_common/SamDMAPDC.h:144 | an empty buffer changes nothing |
| SamDma.StartRxFresh | MotateProject/motate/Atmel_sam_common/SamDMAPDC.h:146-153 | on an idle receiver the buffer becomes the running receive and leftToRead reports its whole length; the next slot is kept |
| SamDma.StartRxExtendKeepsEnd | MotateProject/motate/Atmel_sam_common/SamDMAPDC.h:155-171 | an extended receive, with the pointer inside the buffer, still ends exactly at the buffer's end and has at most the buffer's length to go |
| SamDma.StartRxNext | MotateProject/motate/Atmel_sam_common/SamDMAPDC.h:173-176 | a busy receiver with a free next slot queues the buffer there and keeps the running receive |
| SamDma.StartRxBusyChangesNothing | MotateProject/motate/Atmel_sam_common/SamDMAPDC.h:144-181 | a busy receiver without a usable next slot sets nothing up, while the answer is still true |
| SamDma.StartRxBusyExample | MotateProject/motate/Atmel_sam_common/SamDMAPDC.h:144-181 | a receive 4 bytes short of done at another address takes the busy branch and is unchanged |
| SamDma.Pdc.constructor | MotateProject/motate/Atmel_sam_common/SamDMAPDC.h:77-88 | both directions start idle: pointers and counters zero, disabled, interrupts off |
| SamDma.Pdc.Reset | MotateProject/motate/Atmel_sam_common/SamDMAPDC.h:77-88 | both directions disabled with every pointer and counter zero |
| SamDma.Pdc.SetInterrupts | MotateProject/motate/Atmel_sam_common/SamDMAPDC.h:72-75 | both done interrupts off, nothing else changed |
| SamDma.Pdc.FlushRead | MotateProject/motate/Atmel_sam_common/SamDMAPDC.h:108-111 | RCR and RNCR cleared, the transmit side untouched |
| SamDma.Pdc.StartRxTransfer | MotateProject/motate/Atmel_sam_common/SamDMAPDC.h:138-182 | the receive registers become StartRx's, the transmit ones are untouched, and the answer is whether the buffer is non-empty |
| SamDma.Pdc.StartTxTransfer | MotateProject/motate/Atmel_sam_common/SamDMAPDC.h:229-246 | the transmit registers and the answer are the two-slot start's, the interrupt stopped first in any case |
| SamDma.Pdc.StartRxTransferLegacy | MotateProject/motate/Atmel_sam_common/SamDMA.h:128-144 | the older driver's receive start is the two-slot start on the receive registers |
| SamDma.Pdc.StartTxTransferLegacy | MotateProject/motate/Atmel_sam_common/SamDMA.h:182-196 | the older driver's transmit start is the two-slot start on the transmit registers |
| SamDma.StubStartTransfer | MotateProject/motate/Atmel_sam_common/SamDMA.h:358-397 | the XDMAC stand-in answers as the two-slot start does on an idle channel: true iff the buffer is non-empty |
| SamXdmac.ChannelMask | MotateProject/motate/Atmel_sam_common/SamDMAXDMAC.h:107-116 | a channel below 32 has a mask of exactly one bit |
| SamXdmac.MaxChannel | MotateProject/motate/Atmel_sam_common/SamDMAXDMAC.h:110-114 | the walk's channel is at least its start and every channel it passes |
| SamXdmac.ChannelAsWrittenCollides | MotateProject/motate/Atmel_sam_common/SamDMAXDMAC.h:110-117 | with storage holding 255, the second registration wraps to channel 0, the first's |
| SamXdmac.ChannelIsNext | MotateProject/motate/Atmel_sam_common/SamDMAXDMAC.h:103-117 | starting the walk at 0, the n-th registration takes channel n, which no earlier entry has |
| SamXdmac.Registry.constructor | MotateProject/motate/Atmel_sam_common/SamDMAXDMAC.h:103-104 | the list starts empty |
| SamXdmac.Registry.Register | MotateProject/motate/Atmel_sam_common/SamDMAXDMAC.h:99-118 | one without a handler is not linked; otherwise it is appended at the tail with the next channel and its mask, keeping the channels numbered in order |
| SamXdmac.TxCauseAsWrittenStale | MotateProject/motate/Atmel_sam_common/SamDMAXDMAC.h:152-155 | with neither status bit set the cause is the storage's stale value |
| SamXdmac.TxCause | MotateProject/motate/Atmel_sam_common/SamDMAXDMAC.h:151-156 | OnTxTransferDone iff the block is done, OnTxError iff a write-bus error occurred, and no other flag |
| SamXdmac.TxCauseAgrees | MotateProject/motate/Atmel_sam_common/SamDMAXDMAC.h:153-155 | with the block done, the cause as written is the intended one |
| SamXdmac.StartTxMeaning | MotateProject/motate/Atmel_sam_common/SamDMAXDMAC.h:260-277 | a transmit starts iff the channel is idle and the buffer non-empty, and then runs over it; an empty buffer leaves the idle channel disabled; a busy channel is untouched |
| SamXdmac.StartRxMeaning | MotateProject/motate/Atmel_sam_common/SamDMAXDMAC.h:422-465 | an empty buffer changes nothing, an idle channel takes the buffer, an extended receive still ends at the buffer's end, and any other channel is untouched |
| SamXdmac.XdmacChannel.FlushRead | MotateProject/motate/Atmel_sam_common/SamDMAXDMAC.h:388-408 | CUBC cleared, so the channel reads as done |
| SamXdmac.XdmacChannel.StartTxTransfer | MotateProject/motate/Atmel_sam_common/SamDMAXDMAC.h:260-277 | the channel and the answer are StartTx's |
| SamXdmac.XdmacChannel.StartRxTransfer | MotateProject/motate/Atmel_sam_common/SamDMAXDMAC.h:422-465 | the channel becomes StartRx's and every non-empty buffer is answered true |
| SamUart.UsartDivisorRounds | MotateProject/motate/Atmel_sam_common/SamUART.h:189 | while the products fit 32 bits, the USART's CD is the clock over 16 times the baud rounded to nearest (the UART's rounded-down CD, plus one iff the first decimal is 5 or more) |
| SamUart.RoundedTenths | MotateProject/motate/Atmel_sam_common/SamUART.h:189 | rounding a quotient in tenths adds one exactly when its first decimal digit is 5 or more |
| SamUart.SetModeMeaning | MotateProject/motate/Atmel_sam_common/SamUART.h:190-216 | hardware handshaking iff RTS/CTS, two stop bits iff asked, MODE9 iff 9-bit (else 8-bit characters), parity even over odd over none, 16x oversampling |
| SamUart.SetModeIdempotent | MotateProject/motate/Atmel_sam_common/SamUART.h:190-216 | setting the same options twice gives the register setting them once gives |
| SamUart.CauseFollowsEnables | MotateProject/motate/Atmel_sam_common/SamUART.h:317-350 | after setInterrupts, a ready flag is reported iff it was asked for and its status bit is set; the transfer-done flags are the DMA's |
| SamUart.MaskedNeverReported | MotateProject/motate/Atmel_sam_common/SamUART.h:326-350 | a masked status bit is never reported, and a reported flag always has its status bit set |
| SamUart.FlushAsWrittenNeverWaits | MotateProject/motate/Atmel_sam_common/SamUART.h:367-372 | the USART's flush test as written is false for every status, so it never waits |
| SamUart.FlushAsWrittenSkipsBusy | MotateProject/motate/Atmel_sam_common/SamUART.h:367-372 | with the transmitter busy the test as written goes on where the UART's test waits |
| SamUart.ReadingsUntilEmpty | MotateProject/motate/Atmel_sam_common/SamUART.h:663-668 | a flush reads the status until the first reading showing TXEMPTY, every reading before it showing it clear |
| SamUart.WaitTxEmpty | MotateProject/motate/Atmel_sam_common/SamUART.h:663-668 | the wait loop reads exactly ReadingsUntilEmpty readings |
| SamUart.UsartHardware.constructor | MotateProject/motate/Atmel_sam_common/SamUART.h:152-175 | after init every interrupt source is masked and the peripheral interrupt is enabled |
| SamUart.UsartHardware.SetOptions | MotateProject/motate/Atmel_sam_common/SamUART.h:181-221 | CD is UsartDivisor, the mode register is SetMode's, and the peripheral is enabled again |
| SamUart.UsartHardware.SetInterrupts | MotateProject/motate/Atmel_sam_common/SamUART.h:223-271 | the enables become EnablesAfter's; nothing else changes |
| SamUart.UsartHardware.InterruptCause | MotateProject/motate/Atmel_sam_common/SamUART.h:317-350 | the cause is the masked status with the CTS flag |
| SamUart.UsartHardware.WriteByte | MotateProject/motate/Atmel_sam_common/SamUART.h:360-365 | the character is sent iff TXRDY is set, and the answer is -1 either way |
| SamUart.UsartHardware.Flush | MotateProject/motate/Atmel_sam_common/SamUART.h:367-372 | with the intended test, the status is read until TXEMPTY, then the pause is lifted |
| SamUart.UsartHardware.IsConnected | MotateProject/motate/Atmel_sam_common/SamUART.h:382-388 | connected iff CTS is low |
| SamUart.UsartHardware.PauseTx | MotateProject/motate/Atmel_sam_common/SamUART.h:412-415 | paused, with the DMA's transmit disabled |
| SamUart.UsartHardware.ResumeTx | MotateProject/motate/Atmel_sam_common/SamUART.h:417-420 | not paused, with the DMA's transmit enabled |
| SamUart.UsartHardware.TxTransferPosition | MotateProject/motate/Atmel_sam_common/SamUART.h:407-410 | null while paused, otherwise the DMA's position |
| SamUart.UartHardware.constructor | MotateProject/motate/Atmel_sam_common/SamUART.h:480-500 | after init every interrupt source is masked and the peripheral interrupt is enabled |
| SamUart.UartHardware.SetInterrupts | MotateProject/motate/Atmel_sam_common/SamUART.h:538-582 | the ready enables as the USART's, both transfer-done interrupts stopped by the PDC, the peripheral interrupt enabled; Off disables only the latter |
| SamUart.UartHardware.SetOptions | MotateProject/motate/Atmel_sam_common/SamUART.h:502-536 | CD is UartDivisor and parity is even over odd over none |
| SamUart.UartHardware.WriteByte | MotateProject/motate/Atmel_sam_common/SamUART.h:657-661 | the character is sent and the answer is 1 |
| SamUart.UartHardware.Flush | MotateProject/motate/Atmel_sam_common/SamUART.h:663-668 | the status is read until TXEMPTY |
| SamUart.UartHardware.IsConnected | MotateProject/motate/Atmel_sam_common/SamUART.h:677-683 | always connected |
| SamUart.UartHardware.InterruptCause | MotateProject/motate/Atmel_sam_common/SamUART.h:620-649 | the masked status, never a CTS change |
| SamUart.UartHardware.PauseTx | MotateProject/motate/Atmel_sam_common/SamUART.h:707-710 | paused, with the DMA's transmit disabled |
| SamUart.UartHardware.ResumeTx | MotateProject/motate/Atmel_sam_common/SamUART.h:712-715 | not paused, with the DMA's transmit enabled |
| SamUart.UartHardware.StartTxTransfer | MotateProject/motate/Atmel_sam_common/SamUART.h:698-701 | refused while paused without asking the DMA; otherwise the DMA is asked and its answer returned |
| Sam3xaUart.NvicPriority | MotateProject/motate/Atmel_sam3xa/SamUART.h:805-821 | the highest priority flag present picks 0, 3, 7, 11 or 15; without one the priority is left alone |
| Sam3xaUart.InterruptCause | MotateProject/motate/Atmel_sam3xa/SamUART.h:861-879 | each of TXRDY, ENDTX, RXRDY, ENDRX and CTSIC gives its flag iff it is set in the status, unmasked, and no other bit is reported |
| Sam3xaUart.CauseHasNoPriority | MotateProject/motate/Atmel_sam3xa/SamUART.h:861-879 | a cause never carries a priority bit |
| Sam3xaUart.StartTwoSlotMeaning | MotateProject/motate/Atmel_sam3xa/SamUART.h:921-951 | a start succeeds iff one of the two counters is 0, preferring the current slot and enabling the channel; the other slot is kept; a refused start changes nothing |
| Sam3xaUart.StartTwoSlotIsPdcStart | MotateProject/motate/Atmel_sam3xa/SamUART.h:921-951 | for a non-empty buffer the start is the common PDC driver's start with a next slot |
| Sam3xaUart.StartTwoSlotAcceptsEmpty | MotateProject/motate/Atmel_sam3xa/SamUART.h:921-933 | an empty buffer is accepted and enables an idle channel |
| Sam3xaUart.ConnectedAsWrittenInverted | MotateProject/motate/Atmel_sam3xa/SamUART.h:911-918 | the level of CTS is returned, so CTS high reads as connected |
| Sam3xaUart.Int16 | MotateProject/motate/Atmel_sam3xa/SamUART.h:1042 | the signed 16-bit counter agrees with the unsigned length modulo 2^16 |
| Sam3xaUart.Filled | MotateProject/motate/Atmel_sam3xa/SamUART.h:1040-1056 | read stores at most the wanted count of bytes, each a byte reading, and nothing for a non-positive count |
| Sam3xaUart.FilledAllReady | MotateProject/motate/Atmel_sam3xa/SamUART.h:1040-1056 | with a byte at every reading, read stores the first readings in order |
| Sam3xaUart.FilledSkipsEmpty | MotateProject/motate/Atmel_sam3xa/SamUART.h:1047-1053 | a reading without a byte changes nothing stored |
| Sam3xaUart.Read | MotateProject/motate/Atmel_sam3xa/SamUART.h:1040-1056 | read stores Filled's bytes and answers their count; it is still waiting iff fewer than the length came |
| Sam3xaUart.LongReadReadsNothing | MotateProject/motate/Atmel_sam3xa/SamUART.h:1042-1046 | a length of 0x8000 or more reads nothing |
| Sam3xaUart.Repeated | MotateProject/motate/Atmel_sam3xa/SamUART.h:1083-1098 | a write loop sends only copies of its first character, at most one per attempt |
| Sam3xaUart.SendAttempts | MotateProject/motate/Atmel_sam3xa/SamUART.h:1083-1125 | the loop makes one attempt, or uses every reading when it retries, and sends Repeated's characters |
| Sam3xaUart.UsartHardware.constructor | MotateProject/motate/Atmel_sam3xa/SamUART.h:719-725 | after init nothing is sent and both PDC channels are idle |
| Sam3xaUart.UsartHardware.SetOptions | MotateProject/motate/Atmel_sam3xa/SamUART.h:735-776 | CD is the rounded divisor and the mode register is the common driver's SetMode |
| Sam3xaUart.UsartHardware.SetInterrupts | MotateProject/motate/Atmel_sam3xa/SamUART.h:779-826 | anything but Off sets each enable iff its flag is given, picks NvicPriority's priority and enables the interrupt; Off only disables it |
| Sam3xaUart.UsartHardware.WriteByte | MotateProject/motate/Atmel_sam3xa/SamUART.h:889-894 | the character is sent iff TXRDY is set, and the answer is -1 either way |
| Sam3xaUart.UsartHardware.FlushRead | MotateProject/motate/Atmel_sam3xa/SamUART.h:903-907 | both receive counters cleared |
| Sam3xaUart.UsartHardware.IsConnected | MotateProject/motate/Atmel_sam3xa/SamUART.h:911-918 | connected iff CTS is low (the corrected polarity) |
| Sam3xaUart.UsartHardware.StartRxTransfer | MotateProject/motate/Atmel_sam3xa/SamUART.h:921-933 | the receive channel and the answer are StartTwoSlot's |
| Sam3xaUart.UsartHardware.StartTxTransfer | MotateProject/motate/Atmel_sam3xa/SamUART.h:939-951 | the transmit channel and the answer are StartTwoSlot's |
| Sam3xaUart.UsartHardware.Write | MotateProject/motate/Atmel_sam3xa/SamUART.h:1074-1104 | 0 is always answered; an empty string sends nothing; otherwise only the first character is offered, once, or on every reading when auto-flush with a length never ends |
| Sam3xaUart.UsartHardware.WriteBuffer | MotateProject/motate/Atmel_sam3xa/SamUART.h:1107-1133 | 0 is always answered; the oldest byte is offered and never popped; an empty buffer sends nothing |
| SamPins.PinChangeInterrupt.constructor | MotateProject/motate/Atmel_sam_common/SamPins.h:123-138 | the new entry keeps its mask, has no successor and is linked at the tail of the port's list (or becomes its head) |
| SamPins.InterruptList.constructor | MotateProject/motate/Atmel_sam_common/SamPins.cpp:34 | a port's list starts empty |
| SamPins.InterruptList.Append | MotateProject/motate/Atmel_sam_common/SamPins.h:128-136 | the walk reaches the tail and links the entry after it; the list is the old one plus the entry |
| SamPins.InterruptList.AddInterrupt | MotateProject/motate/Atmel_sam_common/SamPins.h:444-454 | the entry becomes the head of an empty list or the tail's successor; an unlisted entry without a successor extends the list by itself |
| SamPins.RouteSelects | MotateProject/motate/Atmel_sam_common/SamPins.h:249-275 | every pin of the mask reads back the peripheral A, B, C or D it was routed to |
| SamPins.RouteKeepsOthers | MotateProject/motate/Atmel_sam_common/SamPins.h:249-275 | pins outside the mask keep their peripheral, whatever the mode |
| SamPins.ModeReadsBack | MotateProject/motate/Atmel_sam_common/SamPins.h:290-292 | a pin made an output reads Output and one made an input reads Input |
| SamPins.Port.SetModes | MotateProject/motate/Atmel_sam_common/SamPins.h:215-289 | outputs and inputs go to the PIO controller with their output bit set or cleared; a peripheral mode writes the select registers by Route and hands the pins to the peripheral; the clock is on iff some pin is not an output |
| SamPins.Port.GetMode | MotateProject/motate/Atmel_sam_common/SamPins.h:290-292 | a pin reads only Output or Input |
| SamPins.Port.SetInterrupts | MotateProject/motate/Atmel_sam_common/SamPins.h:383-441 | anything but Off configures the detection by Configure, sets the priority when one is given and enables the line and the pins; Off masks the pins and turns the line off only when nothing is pending |
| SamPins.ConfigureHonoursRequest | MotateProject/motate/Atmel_sam_common/SamPins.h:388-413 | a pin of the mask fires on exactly the trigger its option asks for (any edge, rising, falling, low or high), whatever the registers held and whatever priority comes with it |
| SamPins.ConfigureKeepsOthers | MotateProject/motate/Atmel_sam_common/SamPins.h:388-413 | pins outside the mask keep their trigger |
| SamPins.ChangeWithEdgeIsFalling | MotateProject/motate/Atmel_sam_common/SamPins.h:388-409 | a pin-change request combined with a rising edge matches no type: neither edge nor level is written and falling/low is selected |
| SamPins.PinPriority | MotateProject/motate/Atmel_sam_common/SamPins.h:414-430 | no priority without a priority flag, otherwise 0 to 4 with the highest flag winning |
| SamPins.PrescalerAsWritten | MotateProject/motate/Atmel_sam_common/SamPins.h:1207-1214 | the choice is PrescalerChain's: the last k in 1..6 whose shifted clock is below the target, else 0 |
| SamPins.PrescalerChain | MotateProject/motate/Atmel_sam_common/SamPins.h:1207-1214 | the chosen k has its shifted clock below the target and every later k does not |
| SamPins.PrescalerAsWrittenExtremes | MotateProject/motate/Atmel_sam_common/SamPins.h:1207-1214 | the choice as written is always divide-by-1 or divide-by-64 |
| SamPins.PrescalerAsWrittenInverted | MotateProject/motate/Atmel_sam_common/SamPins.h:1207-1214 | a 12 MHz clock asked for 12 MHz is divided by 64, and asked for 100 kHz is not divided |
| SamPins.Prescaler | MotateProject/motate/Atmel_sam_common/SamPins.h:1207-1214 | the smallest divider whose output is at or below the target, or 64 when none is |
| SamPins.PrescalerIsLargestBelow | MotateProject/motate/Atmel_sam_common/SamPins.h:1207-1214 | no output at or below the target is larger than the chosen one |
| SamPins.PrescalerExamples | MotateProject/motate/Atmel_sam_common/SamPins.h:1207-1214 | a 12 MHz clock asked for 12 MHz is not divided, and asked for 100 kHz is divided by 64 |
| SamUniqueId.HexChar | MotateProject/motate/Atmel_sam_common/SamUniqueID.cpp:98-104 | a digit becomes '0' to '9' or 'a' to 'f', and HexValue reads it back |
| SamUniqueId.Prefix | MotateProject/motate/Atmel_sam_common/SamUniqueID.cpp:88-105 | after n passes the loop has written n digits and a dash for every group started after the first |
| SamUniqueId.PrefixDigitAt | MotateProject/motate/Atmel_sam_common/SamUniqueID.cpp:88-105 | the digit of nibble i stays at i + i/4 as the loop goes on |
| SamUniqueId.PrefixDashAt | MotateProject/motate/Atmel_sam_common/SamUniqueID.cpp:92-95 | the dash before each later group stays where it was written |
| SamUniqueId.FormatShape | MotateProject/motate/Atmel_sam_common/SamUniqueID.cpp:86-105 | the string is 19 characters, dashes at 4, 9 and 14 and the lowercase hex character of digit j of word g at 5g + j (as intended, the word's nibble 3 - j, most significant first) |
| SamUniqueId.FormatDigitAt | MotateProject/motate/Atmel_sam_common/SamUniqueID.cpp:88-105 | digit j of word g sits at 5g + j |
| SamUniqueId.FormatRoundTrip | MotateProject/motate/Atmel_sam_common/SamUniqueID.cpp:88-105 | each group of the intended string, read most significant digit first, gives back its word's low 16 bits (the 16 digits cannot hold the words' upper halves) |
| SamUniqueId.FormatDistinguishes | MotateProject/motate/Atmel_sam_common/SamUniqueID.cpp:88-105 | identifiers that differ in some word's low 16 bits give different intended strings |
| SamUniqueId.FormatAsWrittenCollides | MotateProject/motate/Atmel_sam_common/SamUniqueID.cpp:90 | as written the words 0 and 0x80 give the same string, while the intended digits tell them apart |
| SamUniqueId.WriteDigit | MotateProject/motate/Atmel_sam_common/SamUniqueID.cpp:89-104 | one pass writes the dash when a group starts and the digit, extending the string by Prefix's next characters |
| SamUniqueId.Precalculate | MotateProject/motate/Atmel_sam_common/SamUniqueID.cpp:86-105 | the buffer's first 19 characters become the string and its NUL is left in place |
| SamUniqueId.UniqueId.constructor | MotateProject/motate/Atmel_sam_common/SamUniqueID.cpp:82-106 | the words are kept and the buffer holds the intended string followed by a NUL |
| SamUsb.Capacity | MotateProject/motate/Atmel_sam3x/SamUSB.h:499-501 | an EPSIZE field value stands for at least 8 bytes |
| SamUsb.CapacityDoubles | MotateProject/motate/Atmel_sam3x/SamUSB.h:499-501 | each EPSIZE class holds twice the bytes of the one below it |
| SamUsb.BufferSizeFlags | MotateProject/motate/Atmel_sam3x/SamUSB.h:110-129 | the smallest class that holds the size, or the 1024-byte class for anything larger: the class below it is too small |
| SamUsb.FormatIsSizeFlags | MotateProject/motate/Atmel_sam3x/SamUSB.h:491-493 | the clz formula of _format_endpoint_size gives the same field as getBufferSizeFlags for every 16-bit size |
| SamUsb.EndpointSize | MotateProject/motate/Atmel_sam3x/SamUSB.h:499-501 | _get_endpoint_size reads a field back as that class's bytes |
| SamUsb.SizeFieldRoundTrip | MotateProject/motate/Atmel_sam3x/SamUSB.h:491-501 | formatting the bytes a field stands for gives the field back |
| SamUsb.FormatRoundsUp | MotateProject/motate/Atmel_sam3x/SamUSB.h:488-493 | up to 1024 bytes the formatted field holds the size asked for and the class below it does not |
| SamUsb.EnforceLimits | MotateProject/motate/Atmel_sam3x/SamUSB.h:1008-1031 | no settings past endpoint 9; the direction and type kept; the size capped at 64 bytes on endpoint 0 and 1024 elsewhere; one bank on endpoint 0, at most three on endpoints 1 and 2 and two elsewhere |
| SamUsb.EnforceLimitsIdempotent | MotateProject/motate/Atmel_sam3x/SamUSB.h:1008-1031 | settings within the limits are kept, and limiting twice is limiting once |
| SamUsb.Truncate | MotateProject/motate/Atmel_sam3x/SamUSB.h:1379-1386 | cutting the setup buffer to the setup packet's length keeps both parts inside their memory |
| SamUsb.TruncateIsPrefix | MotateProject/motate/Atmel_sam3x/SamUSB.h:1379-1386 | the characters left to send are the first setup-length ones of those pending |
| SamUsb.CopyToFifo | MotateProject/motate/Atmel_sam3x/SamUSB.h:1403-1413 | the FIFO receives the first to_send pending characters, taken from the first part and then the second, and the rest stay pending |
| SamUsb.ReceiveStep | MotateProject/motate/Atmel_sam3x/SamUSB.h:1437-1441 | reading an OUT packet keeps the memory's size and, once nothing remains, the buffer inside it |
| SamUsb.ReceiveStepMeaning | MotateProject/motate/Atmel_sam3x/SamUSB.h:1437-1441 | min(setup length, length_0) FIFO characters land at the pointer and nothing else changes; the pointer moves past them exactly when nothing remains |
| SamUsb.Sam3xService | MotateProject/motate/Atmel_sam3x/SamUSB.h:1517-1620 | a finished transfer or a released bank means an interrupt was serviced, and an IN endpoint's bank is acknowledged at most once in a pass; the DMA part runs only when the endpoint part has not finished the transfer, since finishing disables the DMA interrupt |
| SamUsb.Sam3xServiceCases | MotateProject/motate/Atmel_sam3x/SamUSB.h:1517-1620 | an OUT bank still holding data is not released and, with the DMA buffer full, finishes the transfer; an emptied one is released; an IN bank with data is sent once and finishes only on a DMA end; an empty IN bank finishes; a transfer the endpoint part finishes releases no bank; nothing happens without an enabled interrupt |
| SamUsb.Sam3xInSendMeaning | MotateProject/motate/Atmel_sam3x/SamUSB.h:1517-1620 | an OUT endpoint's TXINI enable is untouched; a finished IN endpoint has TXINI off, whichever part finished it; an unfinished one has it on iff it had or its descriptor was loaded |
| SamUsb.Sam3xFinishedDisarms | MotateProject/motate/Atmel_sam3x/SamUSB.h:1522-1583 | an IN endpoint finished by an empty bank while its DMA shows the descriptor loaded and the buffer ended: finished, no bank released, TXINI off although it was on |
| SamUsb.Sam3xFinished | MotateProject/motate/Atmel_sam3x/SamUSB.h:1515-1622 | the endpoints from 1 to 9 the pass finishes are exactly those whose service completes |
| SamUsb.Sam3xInSendPassMeaning | MotateProject/motate/Atmel_sam3x/SamUSB.h:1515-1622 | after the pass each endpoint from 1 to 9 has the TXINI enable its own service gives, and the others keep theirs |
| SamUsb.UsbDeviceHardware.constructor | MotateProject/motate/Atmel_sam3x/SamUSB.h:309-323 | waiting for a SETUP packet with an empty setup buffer, unconfigured, no DMA in use, no address |
| SamUsb.UsbDeviceHardware.Init | MotateProject/motate/Atmel_sam3x/SamUSB.h:944-948 | _init ends initialised, unconfigured and waiting for a SETUP packet with an empty setup buffer |
| SamUsb.UsbDeviceHardware.InitSetup | MotateProject/motate/Atmel_sam3x/SamUSB.h:1110-1122 | back to waiting for a SETUP packet with an empty setup buffer |
| SamUsb.UsbDeviceHardware.WriteToControl | MotateProject/motate/Atmel_sam3x/SamUSB.h:1335-1337 | the characters pending are the first part followed by the second |
| SamUsb.UsbDeviceHardware.ReadFromControlThen | MotateProject/motate/Atmel_sam3x/SamUSB.h:1322-1332 | the setup buffer is the one part given and the state DATA_OUT |
| SamUsb.UsbDeviceHardware.HandleControlTx | MotateProject/motate/Atmel_sam3x/SamUSB.h:1358-1416 | in the SET_ADDRESS status stage the pending address is configured and the setup ends; otherwise nothing to send or an OUT packet received turns to the OUT handshake, and else the next packet of at most the FIFO size of the setup-length prefix is sent and the rest stays pending; endpoint 0's TXINI enable ends on exactly when a packet was sent |
| SamUsb.UsbDeviceHardware.HandleControlRx | MotateProject/motate/Atmel_sam3x/SamUSB.h:1418-1461 | outside DATA_OUT the setup ends, with a STALL unless an OUT handshake or an aborted IN stage explains the packet; in DATA_OUT with room a packet is read, the callback runs, and a short packet or characters left turn to the IN handshake, which alone turns endpoint 0's TXINI enable on |
| SamUsb.UsbDeviceHardware.Transfer | MotateProject/motate/Atmel_sam3x/SamUSB.h:1626-1675 | refused before configuration with nothing changed; otherwise the descriptor runs and stops with the end-of-buffer interrupt, an IN endpoint also ending on USB's say with its interrupts, the endpoint uses DMA and an IN endpoint's TXINI is on |
| SamUsb.UsbDeviceHardware.CompleteTransfer | MotateProject/motate/Atmel_sam3x/SamUSB.h:1464-1476 | the endpoint leaves DMA, is reported done, and an IN endpoint's TXINI goes off |
| SamUsb.UsbDeviceHardware.StopAllTransfers | MotateProject/motate/Atmel_sam3x/SamUSB.h:1237-1248 | each of endpoints 0 to 9 using DMA leaves it and is reported done, in increasing order |
| SamUsb.UsbDeviceHardware.Reset | MotateProject/motate/Atmel_sam3x/SamUSB.h:1080-1103 | address 0 is configured with none pending; without VBUS the open transfers are stopped and reported |
| SamUsb.UsbDeviceHardware.CheckAndHandleVbusChange | MotateProject/motate/Atmel_sam3x/SamUSB.h:1229-1260 | nothing without a VBUS transition after init; otherwise the control endpoint waits for SETUP, a VBUS loss stops the open transfers and forces a detach and attach, and the change is reported |
| SamUsb.UsbDeviceHardware.ServiceEndpoint | MotateProject/motate/Atmel_sam3x/SamUSB.h:1517-1620 | one endpoint serviced in the driver's order: finished at most once, reported done iff its service completes, the DMA part skipped once the endpoint part's completion has disabled the DMA interrupt, TXINI left as Sam3xInSendAfter says |
| SamUsb.UsbDeviceHardware.CheckAndHandleEndpoint | MotateProject/motate/Atmel_sam3x/SamUSB.h:1478-1625 | one pass over endpoints 1 to 9: handled iff some endpoint's service was, the finished ones leave DMA and are reported done in increasing order, and the TXINI enables follow Sam3xInSendPass |
| SamUsbS70.Service | MotateProject/motate/Atmel_sams70/SamUSB.h:1471-1564 | a finished transfer means an interrupt was serviced, a released bank an endpoint interrupt, and TXINI is turned on only for a loaded IN descriptor |
| SamUsbS70.ServiceCases | MotateProject/motate/Atmel_sams70/SamUSB.h:1471-1564 | an OUT bank still holding data is never released, an emptied one is, and one left when the DMA buffer is full finishes; an IN transfer whose DMA ran dry sends its bank and finishes; a full IN bank with DMA data left is sent and goes on; nothing happens without an enabled interrupt |
| SamUsbS70.Finished | MotateProject/motate/Atmel_sams70/SamUSB.h:1471-1564 | the endpoints the pass finishes are exactly those whose service completes |
| SamUsbS70.InSendAfterMeaning | MotateProject/motate/Atmel_sams70/SamUSB.h:1471-1564 | after the pass a finished IN endpoint has TXINI off, a loaded descriptor whose transfer goes on has it on, and endpoints outside 1 to 9 keep theirs |
| SamUsbS70.UsbDeviceHardware.constructor | MotateProject/motate/Atmel_sams70/SamUSB.h:263-287 | unconfigured, not initialised, a VBUS change pending, no DMA in use |
| SamUsbS70.UsbDeviceHardware.HandleVbusChange | MotateProject/motate/Atmel_sams70/SamUSB.h:1670-1674 | the change is flagged for the main loop and true returned |
| SamUsbS70.UsbDeviceHardware.Transfer | MotateProject/motate/Atmel_sams70/SamUSB.h:1570-1607 | refused before configuration with nothing changed; otherwise run and stop with the end-of-buffer interrupt, an IN endpoint also validating at the buffer end and interrupting on descriptor load with TXINI on, and the endpoint uses DMA |
| SamUsbS70.UsbDeviceHardware.CompleteTransfer | MotateProject/motate/Atmel_sams70/SamUSB.h:1418-1430 | the endpoint leaves DMA, is reported done, and an IN endpoint's TXINI goes off |
| SamUsbS70.UsbDeviceHardware.StopAllTransfers | MotateProject/motate/Atmel_sams70/SamUSB.h:1688-1702 | each of endpoints 0 to 9 using DMA leaves it and is reported done, in increasing order |
| SamUsbS70.UsbDeviceHardware.CheckAndHandleVbusChange | MotateProject/motate/Atmel_sams70/SamUSB.h:1677-1715 | the flag is cleared; nothing more without it or before init; a disconnect stops the open transfers and detaches, a connect attaches, and the change is reported |
| SamUsbS70.UsbDeviceHardware.ServiceEndpoint | MotateProject/motate/Atmel_sams70/SamUSB.h:1471-1564 | one endpoint serviced: finished iff its service completes, TXINI as InSendStep says |
| SamUsbS70.UsbDeviceHardware.CheckAndHandleEndpoint | MotateProject/motate/Atmel_sams70/SamUSB.h:1432-1567 | one pass over endpoints 1 to 9: handled iff some endpoint was, the released banks returned, the finished ones leave DMA and are reported done in increasing order |
| SamUsbS70.FinishedOncePerPass | MotateProject/motate/Atmel_sams70/SamUSB.h:1471-1564 | a pass reports each endpoint done at most once, in increasing order, and only endpoints whose interrupt was serviced |
| TimerCommon.CountFrequency | MotateProject/motate/Atmel_XMega/XMegaTimers.h:293-294 | the up-down modes count at half the frequency asked for, rounded down; the other modes at the frequency itself |
| TimerCommon.FirstStop | MotateProject/motate/Atmel_XMega/XMegaTimers.h:316-319 | the index is the first from k on whose divisor stops the search, or the table's length when none does, and no divisor before it stops it |
| TimerCommon.SetupAsWritten | MotateProject/motate/Atmel_XMega/XMegaTimers.h:307-328 | the search as written fails exactly when the frequency is 0 or no divisor passes its test; otherwise it takes the first divisor that does, the top value test_value / freq, and a period register holding that top's low 16 bits |
| TimerCommon.FindDivisor | MotateProject/motate/Atmel_XMega/XMegaTimers.h:316-319 | the loop ends at the first divisor whose top value fits 16 bits, or past the table |
| TimerCommon.SetupAt | MotateProject/motate/Atmel_XMega/XMegaTimers.h:321-328 | once the search stops at a divisor, the top value lies in 1..0xFFFF and the choice is that divisor, that top in the period register and test_value / top returned |
| TimerCommon.StrictTopFits | MotateProject/motate/Atmel_XMega/XMegaTimers.h:316 | a frequency between test_value / 0x10000 (exclusive) and test_value gives a top value in 1..0xFFFF |
| TimerCommon.SetupMeaning | MotateProject/motate/Atmel_XMega/XMegaTimers.h:286-328 | the frequency is unattainable iff no divisor fits; otherwise the first fitting divisor is taken, the period register holds the whole top value in 1..0xFFFF, and the frequency returned is at least the one asked for and below twice it |
| TimerCommon.StrictStopsLater | MotateProject/motate/Atmel_XMega/XMegaTimers.h:316-319 | the search as written stops at the intended divisor or at an earlier one |
| TimerCommon.Timeout.constructor | MotateProject/motate/Atmel_XMega/XMegaTimers.h:660-662 | start and delay are 0, so the timeout is past at every tick but 0 |
| TimerCommon.Timeout.Set | MotateProject/motate/Atmel_XMega/XMegaTimers.h:668-671 | the timeout starts at the current tick with the new delay, and is past at a later tick iff more than the delay has elapsed, counted modulo 2^32 |
| TimerCommon.PastAfterTicks | MotateProject/motate/Atmel_XMega/XMegaTimers.h:664-666 | k ticks after a set, the timeout is past iff k exceeds the delay, also when the tick count wrapped in between |
| XMegaTimers.WithWaveform | MotateProject/motate/Atmel_XMega/XMegaTimers.h:292-298 | the up-down modes select dual slope, up to match selects single slope, other modes leave WGMODE; the rest of CTRLB is kept |
| XMegaTimers.WithClockSelect | MotateProject/motate/Atmel_XMega/XMegaTimers.h:190-192 | CLKSEL holds the new clock and the rest of CTRLA is kept |
| XMegaTimers.WithOutput | MotateProject/motate/Atmel_XMega/XMegaTimers.h:165-171 | channel c's output enable is set or cleared as asked, and every other CTRLB bit, the waveform mode included, is kept |
| XMegaTimers.ChannelLevel | MotateProject/motate/Atmel_XMega/XMegaTimers.h:459-467 | a compare channel gets HI iff high priority is asked for, LO iff neither high nor medium is, MED otherwise |
| XMegaTimers.OverflowPriorityInverted | MotateProject/motate/Atmel_XMega/XMegaTimers.h:445-456 | the overflow level as written is the channel level turned upside down: high priority gives LO and low gives HI |
| XMegaTimers.WithChannelLevel | MotateProject/motate/Atmel_XMega/XMegaTimers.h:172-174 | channel c's two bits of INTCTRLB hold the new level and the other bits are kept |
| XMegaTimers.WithOverflowLevelAsWritten | MotateProject/motate/Atmel_XMega/XMegaTimers.h:199-201 | the mask without its complement ORs the new overflow level into the old one and clears the error level |
| XMegaTimers.WithOverflowLevel | MotateProject/motate/Atmel_XMega/XMegaTimers.h:199-201 | the overflow level is replaced and the other INTCTRLA bits are kept |
| XMegaTimers.StopOverflowAsWritten | MotateProject/motate/Atmel_XMega/XMegaTimers.h:208-210 | stopping all interrupts as written keeps the overflow level and clears the rest |
| XMegaTimers.StopOverflow | MotateProject/motate/Atmel_XMega/XMegaTimers.h:208-210 | the overflow level is cleared and the other INTCTRLA bits are kept |
| XMegaTimers.OverflowMaskMissesComplement | MotateProject/motate/Atmel_XMega/XMegaTimers.h:199-211 | as written, MED then LO leaves HI, an error level is lost, and stopping leaves the overflow interrupt on; the intended writes give LO, keep the error level and clear the overflow level |
| XMegaTimers.TableRunsOut | MotateProject/motate/Atmel_XMega/XMegaTimers.h:307-319 | at 32 MHz a request for 40 MHz passes every initialised divisor, so the search as written reaches the zero eighth entry; the intended search reports the frequency unattainable |
| XMegaTimers.TopTruncated | MotateProject/motate/Atmel_XMega/XMegaTimers.h:316-325 | at 32 MHz and 488 Hz the search as written stops at divisor 1 with top 65573, which PER cuts to 37; the intended search takes divisor 2, top 32786, 488 Hz |
| XMegaTimers.ResultIsProduct | MotateProject/motate/Atmel_XMega/XMegaTimers.h:321-328 | at 32 MHz and 1 kHz the value returned as written is the wrapped product 1797783552; the intended value is 1000 |
| XMegaTimers.Timer.constructor | MotateProject/motate/Atmel_XMega/XMegaTimers.h:261-272 | no stored clock, the counter stopped, the registers at reset and every interrupt level off |
| XMegaTimers.Timer.SetModeAndFrequency | MotateProject/motate/Atmel_XMega/XMegaTimers.h:286-329 | the counter restarts when called from the constructor and the waveform mode is set; with a fitting divisor its CLKSEL value is stored and selected, PER holds the top value and the frequency achieved is returned; otherwise -1 and the clock and period stay |
| XMegaTimers.Timer.SetTop | MotateProject/motate/Atmel_XMega/XMegaTimers.h:333-335 | PER keeps the low 16 bits of the top value; nothing else changes |
| XMegaTimers.Timer.Start | MotateProject/motate/Atmel_XMega/XMegaTimers.h:350-352 | CLKSEL gets the stored clock; nothing else changes |
| XMegaTimers.Timer.SetExactDutyCycle | MotateProject/motate/Atmel_XMega/XMegaTimers.h:374-384 | the channel's compare register takes the value when the timer has that channel; otherwise nothing changes |
| XMegaTimers.Timer.SetPwmOutput | MotateProject/motate/Atmel_XMega/XMegaTimers.h:411-438 | startPWMOutput and stopPWMOutput set or clear the channel's output enable when the timer has that channel, keeping the rest of CTRLB |
| XMegaTimers.Timer.SetInterrupts | MotateProject/motate/Atmel_XMega/XMegaTimers.h:440-512 | off clears the overflow level and the levels of the timer's channels; otherwise the overflow and the named channel get the level asked for and every other level is kept |
| XMegaTimers.SysTick.constructor | MotateProject/motate/Atmel_XMega/XMegaTimers.h:589-604 | the software count and the RTC count start at 0, so getValue is 0 |
| XMegaTimers.SysTick.Increment | MotateProject/motate/Atmel_XMega/XMegaTimers.h:612-614 | the overflow interrupt adds 0xFFFF to the software count, modulo 2^32 |
| XMegaTimers.SysTick.Tick | MotateProject/motate/Atmel_XMega/XMegaTimers.h:600-614 | with the RTC period at 0xFFFE, every RTC clock, the overflow included, advances getValue by exactly one modulo 2^32 |
| Kl05zTimers.Halted | MotateProject/motate/Freescale_klxx/KL05ZTimers.h:143 | the overflow interrupt enable, the clock mode and the overflow flag are cleared and the rest of SC is kept |
| Kl05zTimers.WithCountMode | MotateProject/motate/Freescale_klxx/KL05ZTimers.h:152-155 | the up-down modes set CPWMS; the other modes leave SC as it was, so CPWMS once set stays set |
| Kl05zTimers.WithPrescaler | MotateProject/motate/Freescale_klxx/KL05ZTimers.h:178 | the PS field holds the divisor index and the rest of SC is kept |
| Kl05zTimers.WithClockMode | MotateProject/motate/Freescale_klxx/KL05ZTimers.h:202-208 | start sets CMOD to counting and stop to off, keeping the rest of SC |
| Kl05zTimers.IndexPastTable | MotateProject/motate/Freescale_klxx/KL05ZTimers.h:164-176 | at 48 MHz, 4 Hz and 50 MHz make the search as written step past the eighth divisor; the intended search reports 4 Hz unattainable |
| Kl05zTimers.TopTruncated | MotateProject/motate/Freescale_klxx/KL05ZTimers.h:173-181 | at 48 MHz and 732 Hz the search as written stops at divisor 1 with top 65573, which MOD cuts to 37; the intended search takes divisor 2, top 32786, 732 Hz |
| Kl05zTimers.ResultIsProduct | MotateProject/motate/Freescale_klxx/KL05ZTimers.h:180-184 | at 48 MHz and 1 kHz the value returned as written is the wrapped product 1897529344; the intended value is 1000 |
| Kl05zTimers.OutputBits | MotateProject/motate/Freescale_klxx/KL05ZTimers.h:229-247 | only the output mode bits are chosen; toggle wins over every other option, and the channel is disconnected iff no match action is asked for |
| Kl05zTimers.PwmOptions | MotateProject/motate/Freescale_klxx/KL05ZTimers.h:231-247 | the PWM aliases select high-true and low-true edge-aligned PWM, toggle overrides them, clear and set on match select their modes |
| Kl05zTimers.WithOutputMode | MotateProject/motate/Freescale_klxx/KL05ZTimers.h:250-255 | the channel's ELS and MS bits are replaced and the rest of CnSC is kept |
| Kl05zTimers.PwmStarted | MotateProject/motate/Freescale_klxx/KL05ZTimers.h:262-267 | ELSB set, ELSA cleared, the rest of CnSC kept |
| Kl05zTimers.PwmStopped | MotateProject/motate/Freescale_klxx/KL05ZTimers.h:272-278 | ELSA and ELSB cleared, the rest of CnSC kept |
| Kl05zTimers.PwmStopStart | MotateProject/motate/Freescale_klxx/KL05ZTimers.h:262-278 | stopping then starting a high-true PWM channel restores its CnSC exactly, while a low-true one does not come back as it was |
| Kl05zTimers.NvicPriority | MotateProject/motate/Freescale_klxx/KL05ZTimers.h:294-309 | a priority of at most 15; none iff no priority option is named, so the old priority stays; Highest gives 0 |
| Kl05zTimers.PriorityOrdered | MotateProject/motate/Freescale_klxx/KL05ZTimers.h:294-309 | a higher priority option always gives a lower NVIC priority number |
| Kl05zTimers.Timer.constructor | MotateProject/motate/Freescale_klxx/KL05ZTimers.h:114-123 | the registers as init leaves them, at reset: SC, CONF and STATUS 0, MOD 0xFFFF, every channel 0, NVIC priority 0 and the IRQ disabled |
| Kl05zTimers.Timer.SetModeAndFrequency | MotateProject/motate/Freescale_klxx/KL05ZTimers.h:135-185 | the counter is stopped with its overflow interrupt off and CPWMS set for the up-down modes; with a fitting divisor PS selects it, MOD holds the top value and the frequency achieved is returned; otherwise -1 with PS and MOD kept |
| Kl05zTimers.Timer.SetTop | MotateProject/motate/Freescale_klxx/KL05ZTimers.h:189-191 | MOD keeps the low 16 bits of the top value; nothing else changes |
| Kl05zTimers.Timer.SetCounting | MotateProject/motate/Freescale_klxx/KL05ZTimers.h:202-208 | start and stop change only CMOD |
| Kl05zTimers.Timer.StopOnMatch | MotateProject/motate/Freescale_klxx/KL05ZTimers.h:210-212 | CSOO is set and the rest of CONF kept |
| Kl05zTimers.Timer.SetExactDutyCycle | MotateProject/motate/Freescale_klxx/KL05ZTimers.h:225-227 | the channel's CnV takes the value; nothing else changes |
| Kl05zTimers.Timer.SetOutputOptions | MotateProject/motate/Freescale_klxx/KL05ZTimers.h:229-256 | the channel's output mode bits become the ones the options select; nothing else changes |
| Kl05zTimers.Timer.SetPwmOutput | MotateProject/motate/Freescale_klxx/KL05ZTimers.h:262-278 | startPWMOutput and stopPWMOutput change only the channel's ELS bits |
| Kl05zTimers.Timer.SetInterrupts | MotateProject/motate/Freescale_klxx/KL05ZTimers.h:280-320 | the IRQ is enabled iff interrupts are asked for; off clears TOIE and, unless the channel is -1, its CHIE; otherwise TOIE for overflow, CHIE and a compare mode for a match on a channel from 0, and the priority named |
| Kl05zTimers.Timer.GetInterruptCause | MotateProject/motate/Freescale_klxx/KL05ZTimers.h:340-358 | an overflow iff TOF is set, reported with channel -1; else the lowest flagged channel; Unknown iff STATUS is 0, leaving the channel; only the reported flag is cleared |
| Kl05zTimers.Timer.ChannelInterruptCause | MotateProject/motate/Freescale_klxx/KL05ZTimers.h:404-417 | an overflow first, else a match iff this channel's flag is set; only the reported flag is cleared |
| Kl05zTimers.LowestFlag | MotateProject/motate/Freescale_klxx/KL05ZTimers.h:349-351 | the channel reported is a set STATUS bit with every bit below it clear |
| Kl05zTimers.MatchArmed | MotateProject/motate/Freescale_klxx/KL05ZTimers.h:286-291 | CHIE is set, and a channel with no compare mode gets MSA; one with a mode keeps it |
| Kl05zTimers.SysTick.constructor | MotateProject/motate/Freescale_klxx/KL05ZTimers.h:437-438 | the tick count starts at 0 |
| Kl05zTimers.SysTick.Increment | MotateProject/motate/Freescale_klxx/KL05ZTimers.h:453-455 | each SysTick interrupt adds one to the count, modulo 2^32 |
| Kl05zTimers.SysTickReload | MotateProject/motate/Freescale_klxx/KL05ZTimers.h:441-445 | a reload exists iff the core clock gives 1 to 2^24 clocks per millisecond; then it fits 24 bits and one more than it is the clocks per millisecond, rounded down |
| XMegaUart.BaudTable | MotateProject/motate/Atmel_XMega/XMegaUART.h:218-277 | every rate in the table gets a setting within 0.0101% of it at 32 MHz; any other rate leaves BSEL and BSCALE at 0, a sixteenth of the clock |
| XMegaUart.BaudRegistersRoundTrip | MotateProject/motate/Atmel_XMega/XMegaUART.h:323-324 | every BSEL in 0..4095 and BSCALE in -8..7 comes back unchanged from the two registers |
| XMegaUart.FrameAsWritten | MotateProject/motate/Atmel_XMega/XMegaUART.h:417-439 | as written, two stop bits iff EvenParity or TwoStopBits is asked for; size and parity as intended |
| XMegaUart.FrameOf | MotateProject/motate/Atmel_XMega/XMegaUART.h:417-439 | 9 data bits iff As9Bit; even parity iff EvenParity, odd iff only OddParity; two stop bits iff TwoStopBits |
| XMegaUart.EvenParityTwoStopBits | MotateProject/motate/Atmel_XMega/XMegaUART.h:433-437 | 8E1 as written gets two stop bits, the intended frame one |
| XMegaUart.LevelOf | MotateProject/motate/Atmel_XMega/XMegaUART.h:454-465 | the highest priority flag named decides the level, and none named gives off |
| XMegaUart.WithInterrupts | MotateProject/motate/Atmel_XMega/XMegaUART.h:446-510 | Off turns all three levels off; otherwise each event named gets the level asked for, the others keep theirs, and a TX-ready request naming a priority remembers it |
| XMegaUart.TxReadyRestores | MotateProject/motate/Atmel_XMega/XMegaUART.h:512-518 | turning TX ready off and on restores the level of the last TX-ready request that named a priority and leaves the other two levels |
| XMegaUart.PriorityStaysPriority | MotateProject/motate/Atmel_XMega/XMegaUART.h:484-487 | the remembered TX-ready priority only ever holds priority flags |
| XMegaUart.WriteLimit | MotateProject/motate/Atmel_XMega/XMegaUART.h:624-635 | the write stops at length, or with length 0 at the NUL or after 0x7FFF bytes |
| XMegaUart.StringCappedAt7FFF | MotateProject/motate/Atmel_XMega/XMegaUART.h:633-653 | with every byte taken, a string longer than 0x7FFF bytes is cut at 0x7FFF, where the front end without the cap sends more |
| XMegaUart.Usart.constructor | MotateProject/motate/Atmel_XMega/XMegaUART.h:576-583 | the USART enabled with CLK2X off, BAUDCTRLA/B holding the table's BSEL and BSCALE, CTRLC the corrected frame (FrameOf), every interrupt level off, nothing sent |
| XMegaUart.Usart.SetOptions | MotateProject/motate/Atmel_XMega/XMegaUART.h:211-444 | BAUDCTRLA/B hold the table's BSEL and BSCALE, which the USART reads back unchanged; CLK2X off; CTRLC the intended frame; the USART ends enabled |
| XMegaUart.Usart.SetInterrupts | MotateProject/motate/Atmel_XMega/XMegaUART.h:446-510 | CTRLA's levels become WithInterrupts of the old ones, and the remembered priority stays priority flags |
| XMegaUart.Usart.SetInterruptTxReady | MotateProject/motate/Atmel_XMega/XMegaUART.h:512-518 | only the data-register-empty level changes: to the remembered priority's level, or off |
| XMegaUart.Usart.ReadByte | MotateProject/motate/Atmel_XMega/XMegaUART.h:527-532 | the data byte iff RXCIF is set, otherwise -1 |
| XMegaUart.Usart.WriteByte | MotateProject/motate/Atmel_XMega/XMegaUART.h:535-541 | the byte is taken and 1 returned iff DREIF is set, otherwise -1 and nothing taken |
| XMegaUart.Usart.Write | MotateProject/motate/Atmel_XMega/XMegaUART.h:624-659 | an empty string sends nothing; otherwise exactly the Transmitted prefix up to WriteLimit is taken, its int16_t count returned, and the flushes are the retries plus a final one when autoFlush sent something |
| XMegaUart.Usart.SendBytes | MotateProject/motate/Atmel_XMega/XMegaUART.h:637-653 | the do-while loop takes exactly the Transmitted prefix and flushes once per refused first attempt under autoFlush |
| Kl05zUart.Try | MotateProject/motate/Freescale_klxx/KL05ZUART.h:180-184 | a ratio gives a candidate only with a non-zero 32-bit product baud * osr and SBR = clock / that product, at least 1; a zero product or a clock below it gives none |
| Kl05zUart.Reachable | MotateProject/motate/Freescale_klxx/KL05ZUART.h:181-184 | when baud * osr does not exceed the clock, SBR = clock / (baud * osr) is at least 1 and the candidate's distance is that of clock / (SBR * osr) from the rate |
| Kl05zUart.AsWrittenAgrees | MotateProject/motate/Freescale_klxx/KL05ZUART.h:180-191 | the loop as written finishes, with the intended choice, exactly when no ratio gives SBR 0 |
| Kl05zUart.SearchFinds | MotateProject/motate/Freescale_klxx/KL05ZUART.h:180-191 | from a given ratio on, the search finds a distance no worse than the best so far or any ratio's, from a ratio whose candidate it is and strictly closer than every later one, or keeps the best so far |
| Kl05zUart.SearchMeaning | MotateProject/motate/Freescale_klxx/KL05ZUART.h:175-191 | SBR 0 (and ratio 4) iff no ratio comes within 0xFFFFFF; otherwise a ratio whose candidate it is, no farther than any ratio, and strictly closer than every later one: the closest, the last of equals |
| Kl05zUart.Unreachable | MotateProject/motate/Freescale_klxx/KL05ZUART.h:181-182 | a rate above clock / osr gives SBR 0 at that ratio |
| Kl05zUart.DivideByZeroAt1Mbaud | MotateProject/motate/Freescale_klxx/KL05ZUART.h:181-182 | 1 Mbaud from 20971520 Hz gives SBR 0 at ratio 21, so the loop as written divides by zero |
| Kl05zUart.SearchPicks | MotateProject/motate/Freescale_klxx/KL05ZUART.h:180-191 | a ratio within 0xFFFFFF of the rate makes the search pick a ratio at least as close, with a non-zero SBR |
| Kl05zUart.ExactAtLast | MotateProject/motate/Freescale_klxx/KL05ZUART.h:186-190 | an exact rate at ratio 32 is the search's choice, as the last of equals |
| Kl05zUart.ChoiceAt1Mbaud | MotateProject/motate/Freescale_klxx/KL05ZUART.h:175-191 | 1 Mbaud from 20971520 Hz gets a non-zero SBR within 48576 of the rate |
| Kl05zUart.ExactAt110Baud | MotateProject/motate/Freescale_klxx/KL05ZUART.h:181-182 | 110 baud from 48 MHz is exact at ratio 32 with SBR 13636 |
| Kl05zUart.SbrTruncatedAt110Baud | MotateProject/motate/Freescale_klxx/KL05ZUART.h:202-205 | at 110 baud from 48 MHz the search picks SBR 13636, which the 13-bit field cuts to 5444, about 275 baud |
| Kl05zUart.SbrField | MotateProject/motate/Freescale_klxx/KL05ZUART.h:202-205 | the SBR field keeps the low 13 bits of SBR |
| Kl05zUart.ChooseOversampling | MotateProject/motate/Freescale_klxx/KL05ZUART.h:176-191 | the loop over ratios 4 to 32 returns the intended search's ratio and SBR |
| Kl05zUart.Priority | MotateProject/motate/Freescale_klxx/KL05ZUART.h:251-266 | the priorities are the timers' 0, 3, 7, 11 and 15, chosen the same way |
| Kl05zUart.Cause | MotateProject/motate/Freescale_klxx/KL05ZUART.h:284-300 | TX ready iff TDRE or TC, RX ready iff RDRF, idle iff IDLE, and no other bit |
| Kl05zUart.TxDoneLooksReady | MotateProject/motate/Freescale_klxx/KL05ZUART.h:69-72 | TX done and TX ready are the same bit, so a transmit-complete cause reads as TX ready |
| Kl05zUart.WithEnables | MotateProject/motate/Freescale_klxx/KL05ZUART.h:232-248 | a request naming any event replaces all four enables by the events it names; one naming none keeps them |
| Kl05zUart.TxReadyEnablesTxDone | MotateProject/motate/Freescale_klxx/KL05ZUART.h:239-245 | asking for TX ready also enables the transmit-complete interrupt and drops RX ready |
| Kl05zUart.WithFrame | MotateProject/motate/Freescale_klxx/KL05ZUART.h:207-222 | M10 iff As10Bit, M iff As9Bit otherwise; PE iff a parity is asked for, PT odd unless EvenParity, PT kept without parity |
| Kl05zUart.Uart0.constructor | MotateProject/motate/Freescale_klxx/KL05ZUART.h:347-355 | the UART enabled with OSR the corrected search's ratio minus one and its SBR cut to 13 bits, BOTHEDGE iff the ratio is below 9, nothing sent and the IRQ off |
| Kl05zUart.Uart0.SetOptions | MotateProject/motate/Freescale_klxx/KL05ZUART.h:164-226 | OSR is the search's ratio minus one, the SBR field its SBR cut to 13 bits, BOTHEDGE set for ratios below 9 and never cleared, SBNS iff two stop bits, the frame bits as WithFrame, and the UART enabled |
| Kl05zUart.Uart0.SetInterrupts | MotateProject/motate/Freescale_klxx/KL05ZUART.h:229-272 | a request other than Off updates the enables, sets the priority named and enables the IRQ; Off only disables the IRQ |
| Kl05zUart.Uart0.SetInterruptTxReady | MotateProject/motate/Freescale_klxx/KL05ZUART.h:275-281 | only TIE changes |
| Kl05zUart.Uart0.ReadByte | MotateProject/motate/Freescale_klxx/KL05ZUART.h:302-308 | the data byte iff RDRF is set, otherwise -1 |
| Kl05zUart.Uart0.WriteByte | MotateProject/motate/Freescale_klxx/KL05ZUART.h:310-317 | the byte is taken and 1 returned iff TDRE is set, otherwise -1 and nothing taken |
| Kl05zUart.Uart0.FlushAndWriteByte | MotateProject/motate/Freescale_klxx/KL05ZUART.h:385-388 | the front end flushes first, so the byte is always taken and 1 returned |
| BufferedUart.FreshInv | MotateProject/motate/Atmel_XMega/XMegaUART.h:694-706 | the member initialisers satisfy the driver's invariant |
| BufferedUart.InitOf | MotateProject/motate/Atmel_XMega/XMegaUART.h:712-715 | init turns RX ready on and TX ready as the chip's request says, keeps the rest and the invariant |
| BufferedUart.InitRequests | MotateProject/motate/Atmel_XMega/XMegaUART.h:714 | the XMega request arms RX ready and TX ready at the low level; the KL05Z's (Freescale_klxx/KL05ZUART.h line 488) enables RX ready only |
| BufferedUart.IsConnected | MotateProject/motate/Atmel_XMega/XMegaUART.h:768-775 | connected iff CTS is low, or always when CTS cannot interrupt |
| BufferedUart.CanSendMeansConnected | MotateProject/motate/Atmel_XMega/XMegaUART.h:757-775 | under RTS/CTS, being allowed to send and being connected agree |
| BufferedUart.NoFlowControlAlwaysSends | MotateProject/motate/Atmel_XMega/XMegaUART.h:757-765 | with no flow control, sending is always allowed |
| BufferedUart.SetOptionsOf | MotateProject/motate/Atmel_XMega/XMegaUART.h:717-733 | RTS/CTS iff asked for and both pins allow it, then TX ready at !canSend and the CTS interrupt on; XON/XOFF iff asked for, and without it no control byte pending; the invariant kept |
| BufferedUart.SetOptionsArmsWhenBlocked | MotateProject/motate/Atmel_XMega/XMegaUART.h:717-788 | under RTS/CTS setOptions arms TX ready exactly when the peer blocks sending, the opposite of what writeByte arms |
| BufferedUart.StopRxOf | MotateProject/motate/Atmel_XMega/XMegaUART.h:735-744 | RTS high under RTS/CTS; under XON/XOFF XOFF becomes the control byte, pending with TX ready armed unless it already was; nothing else changes |
| BufferedUart.StartRxOf | MotateProject/motate/Atmel_XMega/XMegaUART.h:746-755 | RTS low under RTS/CTS; under XON/XOFF XON becomes the control byte, pending with TX ready armed unless it already was; nothing else changes |
| BufferedUart.StopStartInv | MotateProject/motate/Atmel_XMega/XMegaUART.h:735-755 | stopRx and startRx keep the invariant |
| BufferedUart.StopRxIdempotent | MotateProject/motate/Atmel_XMega/XMegaUART.h:735-755 | a second stopRx or startRx changes nothing, so a control byte is queued once |
| BufferedUart.StartReplacesStop | MotateProject/motate/Atmel_XMega/XMegaUART.h:735-755 | startRx after stopRx leaves XON pending and TX ready armed |
| BufferedUart.ReadByteOf | MotateProject/motate/Atmel_XMega/XMegaUART.h:777-782 | with more than size - 4 free (a size_t difference) readByte does startRx, otherwise nothing |
| BufferedUart.WriteByteOf | MotateProject/motate/Atmel_XMega/XMegaUART.h:784-788 | TX ready follows canSend and nothing else changes |
| BufferedUart.WriteWhilePaused | MotateProject/motate/Atmel_XMega/XMegaUART.h:784-788 | a byte written after the peer's XOFF leaves TX ready off |
| BufferedUart.TxPart | MotateProject/motate/Atmel_XMega/XMegaUART.h:795-813 | on a TX-ready cause the deadline is cleared and the transmit buffer's value, when there is one, is sent; TX ready goes off when that buffer is empty or locked; flow-control state and received values stay |
| BufferedUart.RxPart | MotateProject/motate/Atmel_XMega/XMegaUART.h:815-831 | nothing without an RX cause or with a full buffer; XON and XOFF set the send flag under XON/XOFF; any other value, -1 included, is stored, and fewer than 4 free then stops the peer |
| BufferedUart.HandlerWaits | MotateProject/motate/Atmel_XMega/XMegaUART.h:791-793 | before the resume deadline a TX-ready interrupt changes nothing, received bytes included |
| BufferedUart.ControlByteFirst | MotateProject/motate/Atmel_XMega/XMegaUART.h:796-801 | a pending control byte goes out before the transmit buffer, once, and a byte received in the same interrupt waits |
| BufferedUart.TxPartStreams | MotateProject/motate/Atmel_XMega/XMegaUART.h:790-813 | the transmit part sends at most one byte, only on a TX-ready cause, and stores nothing |
| BufferedUart.RxPartStreams | MotateProject/motate/Atmel_XMega/XMegaUART.h:815-831 | the receive part sends nothing and stores at most the value read, only on an RX cause with room, never a control byte under XON/XOFF |
| BufferedUart.HandlerStreams | MotateProject/motate/Atmel_XMega/XMegaUART.h:790-832 | one interrupt sends at most one byte and stores at most one value, never XON or XOFF under XON/XOFF |
| BufferedUart.PeerPausesAndResumes | MotateProject/motate/Atmel_XMega/XMegaUART.h:815-824 | under XON/XOFF alone a received XOFF stops sending and XON resumes it |
| BufferedUart.FillingStopsPeer | MotateProject/motate/Atmel_XMega/XMegaUART.h:826-830 | under XON/XOFF, a stored byte that leaves fewer than 4 free makes XOFF the control byte |
| BufferedUart.TxPartInv | MotateProject/motate/Atmel_XMega/XMegaUART.h:790-813 | the transmit part keeps the invariant |
| BufferedUart.RxPartInv | MotateProject/motate/Atmel_XMega/XMegaUART.h:815-831 | the receive part keeps the invariant |
| BufferedUart.HandlerInv | MotateProject/motate/Atmel_XMega/XMegaUART.h:790-832 | the whole handler keeps the invariant |
| BufferedUart.PinChangeOf | MotateProject/motate/Atmel_XMega/XMegaUART.h:834-837 | the deadline is the SysTick value plus the delay, in 32 bits, and TX ready follows canSend |
| BufferedUart.ResumeWaits | MotateProject/motate/Atmel_XMega/XMegaUART.h:790-837 | with a positive delay and no wrap-around, an interrupt at the tick of a CTS change, TX and RX ready both, changes nothing |
| BufferedUart.ResumeDelayLostAtWrap | MotateProject/motate/Atmel_XMega/XMegaUART.h:834-837 | a deadline past 2^32 wraps below the SysTick value, and the next TX-ready interrupt goes ahead |
| BufferedUart.Flow.constructor | MotateProject/motate/Atmel_XMega/XMegaUART.h:694-710 | the member initialisers: no flow control, XON sent, a delay of 3 and the invariant |
| BufferedUart.Flow.Init | MotateProject/motate/Atmel_XMega/XMegaUART.h:712-715 | the fields become InitOf of the old ones |
| BufferedUart.Flow.SetOptions | MotateProject/motate/Atmel_XMega/XMegaUART.h:717-733 | the fields become SetOptionsOf of the old ones and the invariant holds |
| BufferedUart.Flow.CanSend | MotateProject/motate/Atmel_XMega/XMegaUART.h:757-765 | CTS low under RTS/CTS, else the XON/XOFF flag, else true |
| BufferedUart.Flow.StopRx | MotateProject/motate/Atmel_XMega/XMegaUART.h:735-744 | the fields become StopRxOf of the old ones |
| BufferedUart.Flow.StartRx | MotateProject/motate/Atmel_XMega/XMegaUART.h:746-755 | the fields become StartRxOf of the old ones |
| BufferedUart.Flow.ReadByte | MotateProject/motate/Atmel_XMega/XMegaUART.h:777-782 | the receive buffer's value is returned and the fields become ReadByteOf of the old ones |
| BufferedUart.Flow.WriteByte | MotateProject/motate/Atmel_XMega/XMegaUART.h:784-788 | the transmit buffer's answer is returned and TX ready follows canSend |
| BufferedUart.Flow.Handler | MotateProject/motate/Atmel_XMega/XMegaUART.h:790-832 | the fields become HandlerOf of the old ones and the invariant holds |
| BufferedUart.Flow.TxSide | MotateProject/motate/Atmel_XMega/XMegaUART.h:795-813 | the fields become TxPart of the old ones |
| BufferedUart.Flow.RxSide | MotateProject/motate/Atmel_XMega/XMegaUART.h:815-831 | the fields become RxPart of the old ones |
| BufferedUart.Flow.PinChangeInterrupt | MotateProject/motate/Atmel_XMega/XMegaUART.h:834-837 | the fields become PinChangeOf of the old ones |
| BufferedUart.Flow.SetTxDelayAfterResume | MotateProject/motate/Atmel_XMega/XMegaUART.h:767 | only the resume delay changes |
| BufferedUart.Flow.IsConnectedNow | MotateProject/motate/Atmel_XMega/XMegaUART.h:768-775 | connected iff CTS is low, or always when CTS cannot interrupt |

## Left out

- The compile recorder's file I/O, JSON pretty-printing and process arguments: the model takes the parsed arguments and the parsed database and returns the list to write.
- Message callbacks are modelled as doing nothing; the service-call indirection of sendNextMessage is a direct call.
- Interrupt reentrancy on the SPI and TWI buses is not modelled: each handler runs to completion.
- MotateSpi.Bus.QueueMessage: requires an unqueued message (next pointer null, not sending); queueing a message twice corrupts the list in the original.
- MotateTwi.Bus.QueueMessage: does not restate msg.device == d across the send step; Join states it and the send step does not write the device.
- MotateTwi.Bus.SendNextMessageActual: does not restate that dropped Done messages have a null next pointer; DropDone states it.
- TWIBusDevice (the device wrapper inside TWIBus) refers to names it never declares and cannot be instantiated; the bus itself is modelled.
- The JSON writer (write, finish_writing, exec), floating-point conversion (c_atof, c_floattoa) and characters above 0x7F are not modelled; numbers are scanned for their extent only.
- The UART's overflowBuffer (a Buffer<16>) and the Buffer passed to write are modelled as unbounded FIFOs of bytes: the Buffer template defines no read, write, peek or pop, so neither capacity nor overrun behaviour is stated.
- UART read(buffer, length) busy-waits on the hardware and is not modelled; readByte, writeByte, flush, flushRead, isConnected and the transmit-transfer calls forward to the hardware and appear only as inputs (the answers of writeByte, startRXTransfer and isConnected).
- MotateUart.Uart.StartRxTransfer: getRXTransferPosition is stated through manualRxPosition, which it returns when set.
- MotateUart.Transmitted: with autoFlush, a byte refused at its first attempt is taken to be accepted at the retry after the flush, so the loop always ends; a hardware whose writeByte never answers a positive value, such as the common SAM USART's (Atmel_sam_common/SamUART.h:360-365 answers -1 on every call, even when it put the byte in THR), would keep the original retrying forever, and that endless loop is not modelled. Without autoFlush that USART makes the loop stop after its first byte, which the model states as a refusal.
- MotateUart.Retries: counts one flush per refused first attempt, on the same assumption that the retry after a flush is taken.
- MotateUart.Uart.Write: inherits that assumption from Transmitted; the endless autoFlush loop against a hardware that refuses every byte is not modelled.
- MotateUart.Uart.SendBytes: inherits that assumption from Transmitted.
- MotateUart.Uart.SendBuffered: inherits that assumption from Transmitted.
- MotateUart.Uart.WriteBuffer: inherits that assumption from Transmitted.
- MotateUart.Uart.WriteBufferAsWritten: inherits that assumption from Transmitted.
- Utilities.Itoa: requires the value above -2^31; negating INT_MIN overflows int, which is undefined behaviour in the original.
- Utilities.StrBuf.CopyInt: requires the value above -2^31, for the same reason.
- The SAM SysTick init's SysTick_Config call and its error loop, getValue (a read of the count) and the delay() busy-wait are not modelled; the current tick is a parameter of the Timeout members.
- The SAM timer and PWM register writes (mode, clock selection, interrupt enables, duty cycles, output options, setTop) are not modelled; the setModeAndFrequency members return the chosen divisor, top and frequency instead.
- SamTimers.PwmSetModeAndFrequency: returns the wrapped product the original returns (PwmResultWraps), not the frequency achieved (ActualFrequency). It models the prescaler-only clock, whose search starts at divisor index 0. With clock B the original writes nothing in its branch and then runs the prescaler-only search from the index where the clock-A/B search (DivASearchAsWritten) stopped, not from 0 (Atmel_sam_common/SamTimers.h:914-919 and 941-950); when that search ran off the table the index is 11, the `divisor_index < 10` loop does not run, and divisors[11], past the table, is read. That clock-B path is not modelled, nor are the clock-A register writes after the search; only the clock-A search is (DivASearch).
- SamTimers.PwmPrescalerSearch: requires a non-zero frequency; the original divides by it (a center-aligned request for 1 Hz halves to 0).
- SamTimers.SysTick.UnregisterEvent: requires a non-empty list; the original reads the head's next pointer before any test, which dereferences null on an empty list.
- The watchdog timer and the PWM startTransfer helpers are register plumbing with no logic of their own.
- The TWI driver's init, enable/disable, interrupt priorities, setInterruptHandler, doneWriting and doneReading are register plumbing; the TWIInterruptCause, TWIAddress and TWIInternalAddress types are modelled by Cause, DeviceAddress and InternalAddress, and the TWI DMA class is not part of this model: its answers (startRXTransfer and startTXTransfer accepted or not, doneWriting, doneReading) are inputs.
- The bytes the TWI DMA moves are modelled as positions (handed over to the transmitter, or filled on receive); a DMA-filled position keeps its old byte value in the buffer, since the DMA's data is not modelled. The buffer's address is a parameter of startTransfer, used only for the alignment test.
- The TWI handler callback is the list of causes handleInterrupts delivers; the missing-handler breakpoint is not modelled.
- TWI startTransfer's reset of local_buffer_ptr_ to null on entry is not modelled; the position stays as the last transfer left it until the buffer is taken.
- SamTwiTransfer.TwiHardware.SetSpeed: requires a non-zero speed (the original divides by it); the peripheral clock is a parameter; the fast branch writes the corrected registers (FastClock), not the as-written ones (FastClockAsWritten).
- SamTwiTransfer.TwiHardware.constructor: takes the write threshold, 2 for the write path as written and 1 for the corrected one; the proofs of a whole write are stated for both.
- The SPI driver's init, enable, disable and deassert are single register writes, and its setChannel busy-waits on TXEMPTY; the wait is not modelled, and the direct read/write/transfer code is compiled out in the original. The peripheral clock is a parameter and the SPI DMA's answers (startRXTransfer and startTXTransfer accepted or not, the done flags) are inputs; the DMA class is not part of this model.
- SamSpi.SpiHardware.SetChannelOptions: requires a non-zero baud (the original divides by it) and a channel below 4 (SPI_CSR has four entries); it writes the corrected divider (Divider) and delays (Delay), not the as-written ones; the debugger breaks for delays above 0xFF are not modelled, and each delay field keeps its low eight bits.
- SamSpi.SpiHardware.SetChannel: requires a channel below 4, as SPI_CSR has four entries.
- SamSpi.CsValue: requires every chip-select pin's number below 4, as the peripheral has four chip-select lines; the pin tables that fix those numbers are not part of this model.
- The unused local `interrupts` that startTransfer builds is not modelled; it is never read.
- The PDC's PTCR enable and disable commands are modelled as one enabled flag per direction, the done-interrupt switches (in peripheral-specific code that is not part of this model) as one flag per direction; getRXTransferPosition and getTXTransferPosition are reads of the pointer fields.
- SamDma.Pdc.StartRxTransfer: the read of RPR that tests for an advance and the next read that saves the position are taken to see the same value, so the loop's reads are one sequence of positions; the RPR field ends as the settled position.
- SamDma.StubStartTransfer: the XDMAC stand-in of SamDMA.h writes no register, so only its answer is modelled; its register-writing members are empty in the original.
- The XDMAC channel set-up of resetTX and resetRX (channel configuration words, peripheral addresses, global interrupt enable), setInterrupts' NVIC priority choice (the precedence SamSpi.PriorityLevel states) and getRXTransferPosition's flush request are register plumbing; the receive handler always reports OnRxTransferDone.
- SamXdmac.ChannelMask: a shift by 32 or more is undefined in C++ and is given no bit.
- SamXdmac.Registry.Register: starts its walk at channel 0 (Channel), not at the uninitialised value (ChannelAsWritten); the list is a sequence of entries in link order, not linked objects; an unlinked object's channel is garbage and is not returned.
- The XDMAC receive start's next-slot branch calls a setNextRx whose body is commented out, so it writes nothing and answers true; the transmit start's next-slot branch is commented out.
- The common SAM layer's UARTMode and UARTInterrupt definitions are not part of this model: the option bits are the sam3xa driver's values and the interrupt bits MotateCommon's Interrupt values; the NVIC priority choice, readByte, setInterruptHandler and the single-flag setters are register plumbing.
- The SAM UART drivers' startRXTransfer, getRXTransferPosition, flushRead and the USART's startTXTransfer forward to the DMA (modelled in sam_dma.dfy and sam_xdmac.dfy); the UART's writeByte wait for TXRDY is not modelled.
- SamUart.UsartHardware.Flush: waits with the intended test (FlushWaits), not the one written, which never waits.
- The SAM3X UART front end's isConnected calls a hardware member (isConnceted) that is not declared, so it is not modelled; the hardware's isConnected is. Its readByte, setConnectionCallback and interrupt handler forward or call user callbacks; the hardware's single-flag setters are register plumbing.
- The SAM3X buffered UART (_BufferedUARTHardware and BufferedUART in Atmel_sam3xa/SamUART.h) is not modelled. The model of that file covers setOptions, the interrupt cause, the two-slot DMA transfers and the read and write loops.
- MotateJson.NameBareMeaning: states the bare-name scan with the corrected Lower (the same letter in lowercase), not the rewrite written at MotateJSON.h:1290-1291, 'a'+('A'-c), which turns the key Bc into "`c"; LowerAsWrittenOnlyA states what the written rewrite gives.
- MotateJson.FindEndOfNameBare: rewrites an uppercase letter with the corrected Lower, not with LowerAsWritten (MotateJSON.h:1290-1291).
- MotateJson.FindEndOfStrInPlace: writes an escaped quote at the corrected slot a[i + offset] (FindEndOfStr, escape slot 0), not one slot left at p+offset-1 as MotateJSON.cpp:251-252 writes (StrEndAsWritten, escape slot -1).
- MotateJson.FindEndOfName: calls the corrected string scan (escape slot 0) and the corrected bare scan (Lower), not the as-written ones (MotateJSON.cpp:251-252, MotateJSON.h:1290-1291).
- MotateJson.Step: skips '\r' as a blank (ParserBlank); the blank test written at MotateJSON.h:1390 tests '\t' twice (ParserBlankAsWritten), so the original returns false at the CR of {a:1\r,b:2}. Its key step uses the corrected string and bare scans.
- MotateJson.StepRejects: states the rejections of the corrected Step; the original also rejects '\r' (ParserBlankMissesCr).
- MotateJson.BareKeyLowercase: the key is rewritten by the corrected Lower; with the written 'a'+('A'-c) only 'A' becomes a lowercase letter (LowerAsWrittenOnlyA), so the key's characters need not be lowercase name characters there.
- MotateJson.KeyPass: runs the corrected key step (Lower, string-scan escape slot 0).
- MotateJson.Pass: runs one pass of the corrected Step ('\r' skipped, Lower, escape slot 0).
- MotateJson.ParseObject: runs the corrected Step ('\r' skipped, Lower, escape slot 0) until it stops.
- MotateJson.ParseJsonObject: ends in the state of the corrected parser ('\r' skipped, Lower, escape slot 0).
- MotateJson.ParseJson: runs the corrected parser ('\r' skipped, Lower, escape slot 0).
- MotateJson.InstructionList.Reset: requires the position below the list's size. next() can leave the position at the size, since parse_json_object_ ignores its answer (MotateJSON.h:1330), and the reset() that the next parse_json on the same list makes first (MotateJSON.h:1405) writes ins_[size_], one past the list, which is undefined behaviour in the original.
- Sam3xaUart.UsartHardware.Write and Sam3xaUart.UsartHardware.WriteBuffer: the hardware flush between attempts waits for TXEMPTY and is taken to return; the endless auto-flush loop is cut at the last TXRDY reading and reported as hung.
- Sam3xaUart.UsartHardware.IsConnected: answers with the corrected polarity (Connected), not the CTS level the original returns (ConnectedAsWritten).
- Sam3xaUart.Read: the readings run out where the original keeps waiting; `waiting` reports that.
- SAM pin registers are modelled as the set of pins whose bit is set; a write to a set/clear register (PIO_OER, PIO_PDR, PIO_AIMER and the like) adds its mask to, or removes it from, the status register it drives.
- setModes is modelled for the parts with PIO_ABCDSR; the SAM3X branch that writes PIO_ABSR (peripherals A and B only) is not.
- The pin layer's setOptions (start level, pull-up, open drain, deglitch, debounce), set, clear, toggle, write, getInputValues and getOutputValues, the pin-change handlers and their dispatch from the port interrupt, the ADC pins and the PWM pins are register plumbing or callbacks and are not modelled.
- SamPins.Port.SetInterrupts: the read of PIO_ISR that decides whether the line is turned off is the input `isrClear`; the NVIC line is one flag and its priority an optional number.
- SamPins.Port.constructor: takes the registers' values, since the port's state is the hardware's.
- SamPins.Port.GetMode: takes one pin, as the original reads one pin's mask.
- The flash controller's unique-identifier read (_readUUID: the EEFC command sequence, the interrupt lock-out and the settling delay) is not modelled; the four words it answers are the constructor's parameter, and the string conversion operator is a read of the buffer.
- SamUniqueId.UniqueId.constructor: writes the corrected digits (shift by 4j bits), not the as-written ones (shift by j bits); Precalculate is proved for both.
- SamUsb.EnforceLimits: the last step, which ORs extra transactions (NBTRANS on the SAM3X, EPBK bits on the SAMS70) into an interrupt endpoint's settings, tests kEndpointTypeInterrupt, a constant declared in MotateUSBHelpers.h, which is not part of this model; the settings are returned as they stand before that step. On the SAM3X that step also tests kEndpointBufferBlocks1, whose value (EPBK_1_BANK) is 0, so it never fires there.
- The USB drivers' register plumbing is not modelled: interrupt enables and acknowledges other than TXINI, FIFO pointers, descriptor addresses, the clock and pad set-up in _init, the start-of-frame, suspend and wake-up handlers, and the USB interrupt priority.
- The USB drivers' bus-connected and VBUS levels are inputs to the VBUS handlers; the attach and detach requests are counted, not performed.
- The USB proxy's callbacks (setup packet handling, endpoint configuration, transfer completion) are always present; a completion is recorded as the endpoint reported done, and the control callback's answer (whether more data is expected) is an input.
- The endpoint status and DMA status registers are read as one snapshot per endpoint per pass; the changes a pass makes to them that it reads back are TXINI's enable and the DMA interrupt's enable, which the endpoint part's completion turns off before the DMA part tests it.
- The SAMS70 control endpoint uses the same setup-buffer logic as the SAM3X and is modelled once, in SamUsb.
- The XMega and KL05Z timers' getValue and getTopValue are register reads, setInterruptPending is one NVIC write on the KL05Z and empty on the XMega, and setDutyCycleForChannel works in floating point; none is modelled. The XMega timer's getInterruptCause is a stub that answers Unknown, and the TC1 timers' stubs for channels C and D write nothing, which SetExactDutyCycle and SetPwmOutput state as "no change".
- The XMega timer's stop() calls a setClock that is not declared (only _setClock is), so it cannot be instantiated and is not modelled; unlock, lock and _restart are empty or a single command, and _restart is the counter set to 0.
- The XMega timer's second constructor is init() followed by setModeAndFrequency(mode, freq, true): XMegaTimers.Timer.constructor then XMegaTimers.Timer.SetModeAndFrequency with fromConstructor.
- The KL05Z timer's _enablePeripheralClock and the SIM_SOPT2 clock-source write in setModeAndFrequency are not modelled; the core clock is a parameter. The TimerChannel wrappers forward to the timer, except getInterruptCause, which is Kl05zTimers.Timer.ChannelInterruptCause.
- Kl05zTimers.Timer.SetExactDutyCycle, Kl05zTimers.Timer.SetOutputOptions and Kl05zTimers.Timer.SetPwmOutput: require the channel below the timer's channel count; the original writes past CONTROLS otherwise.
- Kl05zTimers.Timer.SetInterrupts: requires a channel it writes to be inside CONTROLS. The original does no range check and writes outside CONTROLS otherwise: with interrupts off, for a channel below 0 other than -1 or at or above the channel count; with a match interrupt, for a channel at or above the channel count.
- XMegaTimers.Timer.SetModeAndFrequency and Kl05zTimers.Timer.SetModeAndFrequency: write the corrected choice (TimerCommon.Setup), not the as-written one (TimerCommon.SetupAsWritten), and return the frequency achieved, not the product.
- XMegaTimers.Timer.SetInterrupts: writes the corrected overflow level (ChannelLevel, WithOverflowLevel, StopOverflow), not the inverted, uncomplemented one.
- The XMega SysTick's init (the 32 kHz oscillator start-up, its busy-waits and the RTC set-up) is reduced to its effect: both counts at 0 and the RTC period at 0xFFFE. The KL05Z SysTick's SysTick_Config is stated by Kl05zTimers.SysTickReload; the endless error loop is its None. The delay() busy-waits and the watchdogs (empty or one register write) are not modelled.
- The XMega USART's ALLOW_ODD_BAUDS search (_calcBSEL, _calcBaud, _calcError) works in floating point and is compiled out by default; only the baud table is modelled. The rate a table entry gives is stated at a 32 MHz clock.
- The XMega and KL05Z UART hardware's init, enable, disable, the clock gate and the pin set-up are register plumbing; the XMega getInterruptCause is a stub that answers 0. The front ends' read loops and flush busy-waits are not modelled, and the status flags (RXCIF, DREIF, RDRF, TDRE) are inputs.
- XMegaUart.Usart.constructor: runs the corrected SetOptions, so CTRLC holds the corrected frame (FrameOf), not the one where even parity forces two stop bits (FrameAsWritten), which the original constructor's setOptions call (XMegaUART.h:576-583) writes.
- XMegaUart.Usart.SetOptions: writes the corrected frame (FrameOf), not the one where even parity forces two stop bits (FrameAsWritten).
- XMegaUart.Usart.Write: with autoFlush, a refused byte is taken to be accepted after the flush, since flush waits for TXCIF and the data register is then empty; it inherits this from MotateUart.Transmitted.
- XMegaUart.Usart.SendBytes: inherits the same assumption from MotateUart.Transmitted.
- The KL05Z front end's string write (Freescale_klxx/KL05ZUART.h:396-427) and the Buffer writes of the XMega and KL05Z front ends (Atmel_XMega/XMegaUART.h:661-686, Freescale_klxx/KL05ZUART.h:429-454) repeat the code of MotateUART.h:180-238 line for line. MotateUart.Uart.Write and MotateUart.Uart.WriteBufferAsWritten model each of them once, and the Buffer write's 0 return is the same finding in all three files.
- Kl05zUart.Uart0.constructor: runs the corrected SetOptions, so the ratio is the corrected search's (Search), which passes over a ratio whose SBR is 0; the original constructor's setOptions call (KL05ZUART.h:347-355) runs the as-written search, which divides by zero there (SearchAsWritten).
- Kl05zUart.Uart0.SetOptions: picks its ratio by the corrected search (Search), which passes over a ratio whose SBR is 0, not the as-written one (SearchAsWritten), which divides by zero there.
- Kl05zUart.ChoiceAt1Mbaud: states only that the choice has a non-zero SBR within 48576 baud, not which ratio it is.
- BufferedUart: the receive and transmit buffers are not modelled; their answers (free space, size, the value read, empty or locked, full) are inputs, as are the CTS pin level and the SysTick value. The CTS pin's interrupt set-up is the flag ctsOnChange; its priority and the proxy registration in the constructor are not modelled, nor is flush(), a busy-wait on the transmit buffer.
- BufferedUart: the KL05Z copy (Freescale_klxx/KL05ZUART.h:491-612) is the same code and is modelled once; the two differ in init's request, which InitRequests states, and in the CTS pin interrupt's priority, which is not modelled.

## Findings

| source | as written | input that shows it | evidently intended | confidence | as-written member | corrected member |
|---|---|---|---|---|---|---|
| MotateProject/motate/MotateUtilities.h:100-106 | c_itoa_len adds 1 for every non-zero value, not only for negative ones | 5 gives 2 though "5" has 1 character | the digit count plus 1 only for a minus sign | not executed | Utilities.ItoaLenFive | Utilities.ItoaLen |
| MotateProject/motate/MotateJSON.cpp:251-252 | an escaped quote is written at p_+offset_-1, one slot left of the compacted position | the key "\"" compacts to a NUL in place of the quote | write '"' at p_+offset_ and grow the shift by one | not executed | MotateJson.StrEndAsWrittenLosesQuote | MotateJson.StrEndUnquotes |
| MotateProject/motate/MotateJSON.h:1290-1291 | uppercase letters become 'a'+('A'-c) | 'C' becomes '_', 'B' becomes '`' | 'a'+(c-'A') | not executed | MotateJson.LowerAsWrittenOnlyA | MotateJson.LowerInjective |
| MotateProject/motate/MotateJSON.h:1390 | the blank test checks '\t' twice and never '\r' | a CR between two pairs is rejected | space, tab, CR and LF as in skip_whitespace | not executed | MotateJson.ParserBlankMissesCr | MotateJson.SkipWhitespace |
| MotateProject/motate/MotateUART.h:261 | the overflow read in the loop condition comes before the length test | two buffered bytes with one requested: the second is read and discarded | test length > 0 before reading | not executed | MotateUart.ConsumedLosesByte | MotateUart.IntendedLosesNothing |
| MotateProject/motate/MotateUART.h:215-237 | total_written is never incremented, so the Buffer write returns 0 and never makes its final flush | a one-byte buffer, length 1, byte accepted: one byte sent, 0 returned | count each byte taken, as the string write does | not executed | MotateUart.Uart.WriteBufferAsWritten | MotateUart.Uart.WriteBuffer |
| MotateProject/motate/Atmel_sam_common/SamTimers.h:1183-1187 | registerEvent on an empty list makes the event the head without clearing its next pointer | register a and b, unregister both, register a: b is back in the list after a | clear new_event->next as the tail append does | not executed | SamTimers.StaleLinkResurrects | SamTimers.RegisterAfterEmptying |
| MotateProject/motate/Atmel_sam_common/SamTimers.h:914-919 | the clock-A search steps while divisor_index < 11, so it reads divisors[11] past the 11-entry table | an 84 MHz clock asked for 1 Hz: every prescaler is above 255, 82031 at index 10 | stop at the last index, 10, as the prescaler-only search does | not executed | SamTimers.DivASearchAsWritten | SamTimers.DivASearch |
| MotateProject/motate/Atmel_sam_common/SamTimers.h:957-961 | the prescaler-only search returns test_value * newTop, the clock times the period, a uint32_t product that wraps and is returned as an int32_t | 84 MHz asked for 1 kHz: period 42000, the product 1764000000000 wraps to -1231558656 | test_value / newTop, the frequency achieved, as the clock-A branch computes it | not executed | SamTimers.PwmResultWraps | SamTimers.ActualFrequency |
| MotateProject/motate/Atmel_sam_common/SamTWI.h:629 | a write sends its first byte on its own only when more than two bytes remain, and otherwise goes straight to the last-byte state | a two-byte write: byte 0 goes out with the STOP, byte 1 never does, and the write is reported done | `> 1`, so that two bytes go out as a first byte and a last byte | not executed | SamTwiTransfer.TwoByteWriteSendsOneByte | SamTwiTransfer.WriteSendsBuffer |
| MotateProject/motate/Atmel_sam_common/SamTWI.h:186-190 | the CHDIV loop starts from the CKDIV that the CLDIV loop reached without halving CHDIV for those steps | a 200 MHz peripheral clock at 400 kHz: CLDIV 128, CHDIV 237, CKDIV 1 | CHDIV divided by the same 2^CKDIV as CLDIV: 128, 118, 1 | not executed | SamTwi.FastClockSkew | SamTwi.FastClockMeaning |
| MotateProject/motate/Atmel_sam_common/SamSPI.h:146-148 | the baud divider is the peripheral clock over the baud rounded down, so the serial clock is at or above the baud | 120 MHz asked for 50 MHz: divider 2, a 60 MHz serial clock | round up, so the serial clock is the closest one below the baud, as the comment beside it says | not executed | SamSpi.DividerAsWrittenTooFast | SamSpi.DividerAtOrBelow |
| MotateProject/motate/Atmel_sam_common/SamSPI.h:207-228 | each delay multiplies nanoseconds by the clock in uint32_t, which wraps above 2^32 | 1000 ns at 120 MHz: the wrapped product gives 4 cycles instead of 120 | the product taken in 64 bits | not executed | SamSpi.DelayAsWrittenWraps | SamSpi.DelayNearest |
| MotateProject/motate/Atmel_sam_common/SamDMAXDMAC.h:110-117 | a later registration's channel_num is never initialised before the walk takes the maximum over the list | one entry (channel 0) and storage holding 255: the new channel wraps to 0 as well | start the walk at 0, so the n-th registration takes channel n | not executed; objects with static storage are zeroed before construction, so only others are affected | SamXdmac.ChannelAsWrittenCollides | SamXdmac.ChannelIsNext |
| MotateProject/motate/Atmel_sam_common/SamDMAXDMAC.h:152-155 | the transmit handler's cause is uninitialised when the block-done bit is clear | neither status bit set and the storage holding OnRxDone: OnRxDone is reported | start the cause from Off | not executed | SamXdmac.TxCauseAsWrittenStale | SamXdmac.TxCause |
| MotateProject/motate/Atmel_sam_common/SamUART.h:369 | the wait tests `!US_CSR & US_CSR_TXEMPTY`; the logical not turns the status into 0 or 1 before the mask, and TXEMPTY is bit 9 | a busy transmitter (status 0): the test is 1 & 0x200, so flush returns at once | `!(US_CSR & US_CSR_TXEMPTY)`, the test the UART's flush makes | not executed | SamUart.FlushAsWrittenNeverWaits | SamUart.WaitTxEmpty |
| MotateProject/motate/Atmel_sam3xa/SamUART.h:911-918 | isConnected returns the CTS input's level, while CTS is active low | CTS high (the peer not ready to receive): the driver reports a connection | `!CTS`, as the common SAM driver's isConnected tests | not executed | Sam3xaUart.ConnectedAsWrittenInverted | Sam3xaUart.UsartHardware.IsConnected |
| MotateProject/motate/Atmel_sam_common/SamPins.h:1207-1214 | each test `(SystemCoreClock >> k) < target_freq` replaces the prescaler, and the tests get easier as k grows | a 12 MHz clock asked for 12 MHz is divided by 64; asked for 100 kHz it is not divided | the smallest divider whose output is at or below the target | not executed | SamPins.PrescalerAsWrittenInverted | SamPins.Prescaler |
| MotateProject/motate/Atmel_sam_common/SamUniqueID.cpp:90 | digit i is `(_d[i/4] >> (i%4)) & 0xF`, a shift by i%4 bits, so neighbouring digits share three bits and bits 7 and up never show | the words 0 and 0x80 give the same string | each digit its own nibble, most significant first; as the groups have four digits, each can show only its word's low 16 bits | not executed | SamUniqueId.FormatAsWrittenCollides | SamUniqueId.FormatRoundTrip |
| MotateProject/motate/Atmel_XMega/XMegaTimers.h:307-319 | divisors[8] is initialised with seven entries and the search steps while divisor_index < 8, so a frequency no divisor stops reaches the zero eighth entry and divides the clock by 0 | a 32 MHz clock asked for 40 MHz | report kFrequencyUnattainable when no divisor fits | not executed | XMegaTimers.TableRunsOut | TimerCommon.SetupMeaning |
| MotateProject/motate/Freescale_klxx/KL05ZTimers.h:164-176 | the search steps while divisor_index < 8 over an eight-entry table, so a frequency no divisor stops reads divisors[8], past the table | a 48 MHz clock asked for 4 Hz | report kFrequencyUnattainable when no divisor fits | not executed | Kl05zTimers.IndexPastTable | TimerCommon.SetupMeaning |
| MotateProject/motate/Atmel_XMega/XMegaTimers.h:316-325 | the search stops when freq equals test_value / 0x10000, where the top value test_value / freq reaches 0x10000 or more and the 16-bit PER keeps its low bits | a 32 MHz clock asked for 488 Hz: top 65573, PER 37 | stop only when freq exceeds test_value / 0x10000, so that the top fits: divisor 2, top 32786 | not executed | XMegaTimers.TopTruncated | TimerCommon.SetupMeaning |
| MotateProject/motate/Freescale_klxx/KL05ZTimers.h:173-190 | the same lower bound lets a top value of 0x10000 or more through, and MOD keeps its low 16 bits | a 48 MHz clock asked for 732 Hz: top 65573, MOD 37 | stop only when freq exceeds test_value / 0x10000: divisor 2, top 32786 | not executed | Kl05zTimers.TopTruncated | TimerCommon.SetupMeaning |
| MotateProject/motate/Atmel_XMega/XMegaTimers.h:328 | setModeAndFrequency returns test_value * newTop, a wrapped product, not the frequency | a 32 MHz clock asked for 1 kHz returns 1797783552 | test_value / newTop, 1000 | not executed | XMegaTimers.ResultIsProduct | XMegaTimers.Timer.SetModeAndFrequency |
| MotateProject/motate/Freescale_klxx/KL05ZTimers.h:184 | setModeAndFrequency returns test_value * newTop, a wrapped product, not the frequency | a 48 MHz clock asked for 1 kHz returns 1897529344 | test_value / newTop, 1000 | not executed | Kl05zTimers.ResultIsProduct | Kl05zTimers.Timer.SetModeAndFrequency |
| MotateProject/motate/Atmel_XMega/XMegaTimers.h:445-456 | the overflow interrupt gets LO for kInterruptPriorityHigh and HI for the low priority, the reverse of the compare channels | overflow at high priority: level LO | HI for high, LO for low, as the channels get | not executed | XMegaTimers.OverflowPriorityInverted | XMegaTimers.Timer.SetInterrupts |
| MotateProject/motate/Atmel_XMega/XMegaTimers.h:199-211 | _setOverflowInterruptPriority and _stopAllInterrupts mask INTCTRLA with OVFINTLVL_gm instead of its complement, so the old overflow level is kept and the error level lost | MED then LO gives HI; stopping all interrupts leaves a LO overflow interrupt on | mask with ~OVFINTLVL_gm, as the channel setter does | not executed | XMegaTimers.OverflowMaskMissesComplement | XMegaTimers.StopOverflow |
| MotateProject/motate/Atmel_XMega/XMegaUART.h:433-437 | the stop-bit test is options & (EvenParity \| TwoStopBits), so even parity selects two stop bits | 8E1 gets two stop bits | two stop bits only with TwoStopBits | not executed | XMegaUart.EvenParityTwoStopBits | XMegaUart.Usart.SetOptions |
| MotateProject/motate/Freescale_klxx/KL05ZUART.h:180-182 | every ratio from 4 to 32 is tried, and a rate above clock / osr gives temp_sbr_value 0, which the next line divides by | 1 Mbaud from the 20971520 Hz default clock: ratio 21 gives SBR 0 | pass over a ratio whose SBR is 0 | not executed | Kl05zUart.DivideByZeroAt1Mbaud | Kl05zUart.SearchMeaning |

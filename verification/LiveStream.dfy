/**
 The live stream of a provider run: a lifecycle thread that only ever queues, a writer thread that
 owns the file, a reserved queue slot and a reserved tail of the byte budget (`_LiveStream` in
 orchestrator/runner.py). Every step below is one that may interleave with any step of the other thread.
 */
module LiveStream {
  import opened Prelude
  import opened Bytes

  const MAX_BYTES := 8192
  const RESERVE := 512
  const DEPTH := 256

  /** An optional record before it is numbered; how it is encoded is the caller's. */
  type Payload = nat

  type Encoder = (Payload, nat) -> Option<seq<Byte>>

  datatype Terminal = Terminal(ts: nat, exitCode: Option<int>, timedOut: bool)

  datatype Item = Optional(payload: Payload) | Sentinel

  /** Where the lifecycle thread is. */
  datatype Producer = Idle | Offering(payload: Payload) | TerminalSet | ClosingSet | Closed

  /** Where the writer thread is. */
  datatype Writer = Starting | Waiting | Holding(item: Item) | Checked | Sealing(complete: bool) | Ended

  datatype Stream = Stream(
    queue: seq<Item>, closing: bool, incomplete: bool, terminal: Option<Terminal>, producer: Producer,
    writer: Writer, open: bool, file: seq<Byte>, written: nat, next: nat,
    offered: seq<Payload>, admitted: seq<Payload>, wrote: seq<Payload>, interrupted: bool, sealed: Option<bool>)

  // ---------------------------------------------------------------- the terminal line

  function Bool(b: bool): (s: string) {
    if b then "true" else "false"
  }

  function Ascii(s: string): (bytes: seq<Byte>)
    ensures |bytes| == |s|
  {
    seq(|s|, i requires 0 <= i < |s| => if s[i] as int < 256 then s[i] as int else 63)
  }

  function Signed(n: int): (s: seq<Byte>) {
    if n < 0 then [45] + Decimal(-n) else Decimal(n)
  }

  function EndLine(position: nat, t: Terminal, complete: bool): (line: seq<Byte>) {
    Ascii("{\"event\": \"stage_end\", \"seq\": ") + Decimal(position)
    + Ascii(", \"ts_ms\": ") + Decimal(t.ts)
    + Ascii(", \"exit_code\": ") + (if t.exitCode.Some? then Signed(t.exitCode.value) else Ascii("null"))
    + Ascii(", \"timed_out\": ") + Ascii(Bool(t.timedOut))
    + Ascii(", \"live_complete\": ") + Ascii(Bool(complete)) + Ascii("}") + [NEWLINE]
  }

  /** Times and exit codes are far below a hundred digits. */
  predicate Reasonable(t: Terminal) {
    t.ts < Power10(100) && (t.exitCode.Some? ==> -t.exitCode.value < Power10(100) && t.exitCode.value < Power10(100))
  }

  /** A stage_end line fits the reserve. */
  lemma EndLineFits(position: nat, t: Terminal, complete: bool)
    requires position < Power10(100) && Reasonable(t)
    ensures |EndLine(position, t, complete)| <= RESERVE
  {
    hide Power10, Decimal;
    DecimalFits(position, 100);
    DecimalFits(t.ts, 100);
    if t.exitCode.Some? {
      DecimalFits(if t.exitCode.value < 0 then -t.exitCode.value else t.exitCode.value, 100);
    }
  }

  // ---------------------------------------------------------------- the lifecycle thread

  function Fresh(started: bool): (s: Stream) {
    Stream([], false, !started, None, Idle, if started then Starting else Ended, false, [], 0, 0, [], [], [], false,
           None)
  }

  predicate NotClosing(s: Stream) {
    s.producer.Idle? || s.producer.Offering?
  }

  /**
   `_offer` up to the put; a refused record marks the stream incomplete. After `close` nothing is offered any
   more.
   */
  function OfferCheck(s: Stream, started: bool, p: Payload): (after: Stream)
    requires s.producer.Idle? || s.producer.Closed?
  {
    var noted := if s.producer.Idle? then s.(offered := s.offered + [p]) else s;
    if !started || s.closing || |s.queue| >= DEPTH then noted.(incomplete := true) else noted.(producer := Offering(p))
  }

  /** `put_nowait` of an optional record. */
  function OfferPut(s: Stream): (after: Stream)
    requires s.producer.Offering?
  {
    s.(queue := s.queue + [Optional(s.producer.payload)], admitted := s.admitted + [s.producer.payload],
       producer := Idle)
  }

  /** An asynchronous interrupt between the check and the put; the runner still reaches `close`. */
  function Interrupt(s: Stream): (after: Stream)
    requires s.producer.Offering?
  {
    s.(producer := Idle, interrupted := true)
  }

  function Degrade(s: Stream): (after: Stream) {
    s.(incomplete := true)
  }

  function CloseTerminal(s: Stream, t: Terminal): (after: Stream)
    requires s.producer.Idle?
  {
    s.(terminal := Some(t), producer := TerminalSet)
  }

  function CloseFlag(s: Stream): (after: Stream)
    requires s.producer.TerminalSet?
  {
    s.(closing := true, producer := ClosingSet)
  }

  /** The sentinel goes into the slot beyond the optional depth. */
  function CloseSend(s: Stream): (after: Stream)
    requires s.producer.ClosingSet?
  {
    if |s.queue| < DEPTH + 1 then s.(queue := s.queue + [Sentinel], producer := Closed)
    else s.(incomplete := true, producer := Closed)
  }

  // ---------------------------------------------------------------- the writer thread

  function WriterOpen(s: Stream, ok: bool): (after: Stream)
    requires s.writer.Starting?
  {
    s.(writer := Waiting, open := ok, incomplete := s.incomplete || !ok)
  }

  function WriterGet(s: Stream): (after: Stream)
    requires s.writer.Waiting? && s.queue != []
  {
    s.(writer := Holding(s.queue[0]), queue := s.queue[1..])
  }

  /** How much of a line reaches the file when the write fails. */
  function Torn(line: seq<Byte>, k: nat): (part: seq<Byte>)
    ensures part <= line
  {
    if k <= |line| then line[..k] else line
  }

  /** `_write_record`: `torn` is None when the write succeeds. */
  function WriteRecord(s: Stream, enc: Encoder, torn: Option<nat>): (after: Stream)
    requires s.writer.Holding? && s.writer.item.Optional?
  {
    var line := enc(s.writer.item.payload, s.next);
    if !s.open || line.None? || s.written + |line.value| + RESERVE > MAX_BYTES then
      s.(incomplete := true, writer := Waiting)
    else WriteLine(s, line.value, torn)
  }

  /** A record's line that leaves the reserve. */
  function WriteLine(s: Stream, line: seq<Byte>, torn: Option<nat>): (after: Stream)
    requires s.writer.Holding? && s.writer.item.Optional?
  {
    if torn.Some? then s.(file := s.file + Torn(line, torn.value), incomplete := true, open := false, writer := Waiting)
    else s.(file := s.file + line, written := s.written + |line|, next := s.next + 1,
            wrote := s.wrote + [s.writer.item.payload],
            writer := Waiting)
  }

  /** The sentinel was taken: anything still queued makes the stream incomplete. */
  function FinalCheck(s: Stream): (after: Stream)
    requires s.writer.Holding? && s.writer.item.Sentinel?
  {
    s.(incomplete := s.incomplete || s.queue != [], writer := Checked)
  }

  function FinalRead(s: Stream): (after: Stream)
    requires s.writer.Checked?
  {
    s.(writer := Sealing(!s.incomplete))
  }

  function TerminalOf(s: Stream): (t: Terminal) {
    if s.terminal.Some? then s.terminal.value else Terminal(0, None, false)
  }

  function FinalWrite(s: Stream, torn: Option<nat>): (after: Stream)
    requires s.writer.Sealing?
  {
    FinalLine(s, EndLine(s.next, TerminalOf(s), s.writer.complete), torn)
  }

  /** The terminal line may use the reserve; whatever happens, the file is closed after it. */
  function FinalLine(s: Stream, line: seq<Byte>, torn: Option<nat>): (after: Stream)
    requires s.writer.Sealing?
  {
    if !s.open || s.written + |line| > MAX_BYTES then s.(open := false, writer := Ended)
    else if torn.Some? then s.(file := s.file + Torn(line, torn.value), open := false, writer := Ended)
    else s.(file := s.file + line, written := s.written + |line|, next := s.next + 1, open := false, writer := Ended,
            sealed := Some(s.writer.complete))
  }

  /** A process-control exception ends the writer wherever it is. */
  function WriterDies(s: Stream): (after: Stream) {
    s.(incomplete := true, open := false, writer := Ended)
  }

  // ---------------------------------------------------------------- interleavings

  datatype Step =
    | DoOfferCheck(payload: Payload) | DoOfferPut | DoInterrupt | DoDegrade
    | DoCloseTerminal(terminal: Terminal) | DoCloseFlag | DoCloseSend
    | DoOpen(ok: bool) | DoGet | DoWrite(torn: Option<nat>) | DoFinalCheck | DoFinalRead
    | DoFinalWrite(torn': Option<nat>) | DoDie

  predicate Enabled(s: Stream, step: Step) {
    match step
    case DoOfferCheck(_) => s.producer.Idle? || s.producer.Closed?
    case DoOfferPut => s.producer.Offering?
    case DoInterrupt => s.producer.Offering?
    case DoDegrade => true
    case DoCloseTerminal(t) => s.producer.Idle? && Reasonable(t)
    case DoCloseFlag => s.producer.TerminalSet?
    case DoCloseSend => s.producer.ClosingSet?
    case DoOpen(_) => s.writer.Starting?
    case DoGet => s.writer.Waiting? && s.queue != []
    case DoWrite(_) => s.writer.Holding? && s.writer.item.Optional?
    case DoFinalCheck => s.writer.Holding? && s.writer.item.Sentinel?
    case DoFinalRead => s.writer.Checked?
    case DoFinalWrite(_) => s.writer.Sealing?
    case DoDie => true
  }

  function Take(s: Stream, started: bool, enc: Encoder, step: Step): (after: Stream)
    requires Enabled(s, step)
  {
    match step
    case DoOfferCheck(p) => OfferCheck(s, started, p)
    case DoOfferPut => OfferPut(s)
    case DoInterrupt => Interrupt(s)
    case DoDegrade => Degrade(s)
    case DoCloseTerminal(t) => CloseTerminal(s, t)
    case DoCloseFlag => CloseFlag(s)
    case DoCloseSend => CloseSend(s)
    case DoOpen(ok) => WriterOpen(s, ok)
    case DoGet => WriterGet(s)
    case DoWrite(torn) => WriteRecord(s, enc, torn)
    case DoFinalCheck => FinalCheck(s)
    case DoFinalRead => FinalRead(s)
    case DoFinalWrite(torn) => FinalWrite(s, torn)
    case DoDie => WriterDies(s)
  }

  /** The states some interleaving reaches from a fresh stream. */
  ghost predicate Reaches(started: bool, enc: Encoder, steps: seq<Step>, s: Stream) {
    if steps == [] then s == Fresh(started)
    else
      exists before ::
        && Reaches(started, enc, Front(steps), before) && Enabled(before, Last(steps))
        && s == Take(before, started, enc, Last(steps))
  }

  // ---------------------------------------------------------------- what every interleaving keeps

  /** The lines of records numbered 0, 1, 2, ... */
  function Lines(enc: Encoder, payloads: seq<Payload>): (bytes: seq<Byte>) {
    if payloads == [] then []
    else
      var line := enc(Last(payloads), |payloads| - 1);
      Lines(enc, Front(payloads)) + (if line.Some? then line.value else [])
  }

  function Payloads(items: seq<Item>): (payloads: seq<Payload>) {
    if items == [] then []
    else if Last(items).Optional? then Payloads(Front(items)) + [Last(items).payload] else Payloads(Front(items))
  }

  function Held(s: Stream): (payloads: seq<Payload>) {
    if s.writer.Holding? && s.writer.item.Optional? then [s.writer.item.payload] else []
  }

  /** Only the closed stream has its sentinel, and it is the last thing ever queued. */
  ghost predicate Queued(s: Stream) {
    && (s.closing <==> s.producer.ClosingSet? || s.producer.Closed?)
    && (forall i :: 0 <= i < |s.queue| && s.queue[i].Sentinel? ==> i == |s.queue| - 1 && s.producer.Closed?)
    && (s.queue != [] && Last(s.queue).Sentinel? ==> |s.queue| <= DEPTH + 1)
    && (s.queue == [] || Last(s.queue).Optional? ==> |s.queue| <= DEPTH)
    && (s.producer.Offering? ==> |s.queue| < DEPTH)
    && (s.writer.Holding? && s.writer.item.Sentinel? ==> s.queue == [] && s.producer.Closed?)
    && (s.writer.Checked? || s.writer.Sealing? ==> s.queue == [] && s.producer.Closed?)
  }

  /** The file holds the written records in order, then at most one more line or the start of one. */
  ghost predicate OnDisk(s: Stream, enc: Encoder) {
    && |s.file| <= MAX_BYTES
    && Lines(enc, s.wrote) <= s.file
    && (s.open ==>
          && s.writer != Ended && s.file == Lines(enc, s.wrote) && |s.file| == s.written && s.next == |s.wrote|
          && s.written + RESERVE <= MAX_BYTES)
    && (s.writer.Starting? ==> s.file == [] && s.wrote == [] && s.written == 0 && s.next == 0)
    && (s.sealed.Some? ==>
          && s.writer.Ended? && s.terminal.Some?
          && s.file == Lines(enc, s.wrote) + EndLine(|s.wrote|, s.terminal.value, s.sealed.value))
    && |s.wrote| <= |Lines(enc, s.wrote)| && (s.wrote == [] ==> |s.file| + RESERVE <= MAX_BYTES)
    && (s.terminal.Some? ==> Reasonable(s.terminal.value))
    && (s.terminal.Some? <==> !NotClosing(s))
  }

  /** As long as nothing marked the stream incomplete, every admitted record is written, held or queued, in order. */
  ghost predicate Accounted(s: Stream) {
    && (!s.incomplete ==> s.open || s.writer.Starting? || s.sealed.Some? || s.writer.Ended?)
    && (!s.incomplete && !s.writer.Ended? ==> s.admitted == s.wrote + Held(s) + Payloads(s.queue))
    && (!s.incomplete && !s.interrupted ==>
          s.offered == s.admitted + (if s.producer.Offering? then [s.producer.payload] else []))
    && (s.writer.Sealing? && s.writer.complete ==>
        s.admitted == s.wrote && (!s.interrupted ==> s.offered == s.admitted))
    && (s.sealed == Some(true) ==> s.admitted == s.wrote && (!s.interrupted ==> s.offered == s.admitted))
  }

  /** Every record that is queued was offered, one that is about to be is, and one an interrupt took was too. */
  predicate Counted(s: Stream) {
    |s.offered| >= |s.admitted| + (if s.producer.Offering? then 1 else 0) + (if s.interrupted then 1 else 0)
  }

  /** Every line an encoder returns is one line. */
  ghost predicate Framed(enc: Encoder) {
    forall p: Payload, k: nat :: enc(p, k).Some? ==> OneLine(enc(p, k).value)
  }

  predicate OneLine(line: seq<Byte>) {
    line != [] && Last(line) == NEWLINE && NEWLINE !in Front(line)
  }

  ghost predicate Sane(s: Stream, enc: Encoder) {
    Queued(s) && OnDisk(s, enc) && Accounted(s) && Counted(s)
  }

  lemma LinesStep(enc: Encoder, payloads: seq<Payload>, p: Payload)
    ensures Lines(enc, payloads + [p]) == Lines(enc, payloads)
            + (if enc(p, |payloads|).Some? then enc(p, |payloads|).value else [])
  {
    assert Front(payloads + [p]) == payloads;
  }

  lemma PayloadsStep(items: seq<Item>, item: Item)
    ensures Payloads(items + [item]) == Payloads(items) + (if item.Optional? then [item.payload] else [])
  {
    assert Front(items + [item]) == items;
  }

  lemma {:induction false} PayloadsHead(items: seq<Item>)
    requires items != [] && items[0].Optional?
    ensures Payloads(items) == [items[0].payload] + Payloads(items[1..])
  {
    if |items| == 1 {
      assert Front(items) == [] && items[1..] == [];
    } else {
      PayloadsHead(Front(items));
      assert Front(items)[1..] == Front(items[1..]);
    }
  }

  lemma TerminalFits(s: Stream, enc: Encoder)
    requires OnDisk(s, enc) && s.writer.Sealing? && s.terminal.Some?
    ensures s.open ==> s.written + |EndLine(s.next, TerminalOf(s), s.writer.complete)| <= MAX_BYTES
    ensures s.open ==> |EndLine(s.next, TerminalOf(s), s.writer.complete)| <= RESERVE
  {
    hide EndLine, Power10, Lines;
    if s.open {
      Power10Grows(100);
      EndLineFits(s.next, s.terminal.value, s.writer.complete);
    }
  }

  lemma FreshIsSane(started: bool, enc: Encoder)
    ensures Sane(Fresh(started), enc)
  {
  }

  lemma OfferKeeps(s: Stream, started: bool, enc: Encoder, p: Payload)
    requires Sane(s, enc) && (s.producer.Idle? || s.producer.Closed?)
    ensures Sane(OfferCheck(s, started, p), enc)
  {
    hide EndLine, Reasonable, Lines, Payloads;
  }

  lemma PutKeeps(s: Stream, enc: Encoder)
    requires Sane(s, enc) && s.producer.Offering?
    ensures Sane(OfferPut(s), enc) && Sane(Interrupt(s), enc)
  {
    hide EndLine, Reasonable, Lines, Payloads;
    PayloadsStep(s.queue, Optional(s.producer.payload));
  }

  lemma TerminalKeeps(s: Stream, enc: Encoder, t: Terminal)
    requires Sane(s, enc) && Reasonable(t) && s.producer.Idle?
    ensures Sane(CloseTerminal(s, t), enc)
  {
    hide EndLine, Reasonable, Lines, Payloads;
  }

  lemma FlagKeeps(s: Stream, enc: Encoder)
    requires Sane(s, enc) && s.producer.TerminalSet?
    ensures Sane(CloseFlag(s), enc)
  {
    hide EndLine, Reasonable, Lines, Payloads;
  }

  lemma SendKeeps(s: Stream, enc: Encoder)
    requires Sane(s, enc) && s.producer.ClosingSet?
    ensures Sane(CloseSend(s), enc)
  {
    hide EndLine, Reasonable, Lines, Payloads;
    PayloadsStep(s.queue, Sentinel);
  }

  lemma ProducerKeeps(s: Stream, started: bool, enc: Encoder, step: Step)
    requires Sane(s, enc) && Enabled(s, step)
    requires step.DoOfferCheck? || step.DoOfferPut? || step.DoInterrupt? || step.DoDegrade? || step.DoCloseTerminal?
             || step.DoCloseFlag? || step.DoCloseSend?
    ensures Sane(Take(s, started, enc, step), enc)
  {
    hide EndLine, Lines, Payloads, OfferCheck, OfferPut, Interrupt, CloseTerminal, CloseFlag, CloseSend, Queued;
    hide OnDisk, Accounted, Counted;
    if step.DoOfferCheck? {
      OfferKeeps(s, started, enc, step.payload);
    } else if step.DoOfferPut? || step.DoInterrupt? {
      PutKeeps(s, enc);
    } else if step.DoDegrade? {
      DegradeKeeps(s, enc);
    } else if step.DoCloseTerminal? {
      TerminalKeeps(s, enc, step.terminal);
    } else if step.DoCloseFlag? {
      FlagKeeps(s, enc);
    } else {
      SendKeeps(s, enc);
    }
  }

  lemma DegradeKeeps(s: Stream, enc: Encoder)
    requires Sane(s, enc)
    ensures Sane(Degrade(s), enc)
  {
    hide EndLine, Reasonable, Lines, Payloads;
  }

  lemma WriteKeeps(s: Stream, enc: Encoder, torn: Option<nat>)
    requires Sane(s, enc) && Framed(enc) && s.writer.Holding? && s.writer.item.Optional?
    ensures Sane(WriteRecord(s, enc, torn), enc)
  {
    hide EndLine, Reasonable, Lines, Payloads;
    LinesStep(enc, s.wrote, s.writer.item.payload);
  }

  lemma GetKeeps(s: Stream, enc: Encoder)
    requires Sane(s, enc) && s.writer.Waiting? && s.queue != []
    ensures Sane(WriterGet(s), enc)
  {
    hide EndLine, Reasonable, Lines, Payloads;
    if s.queue[0].Optional? {
      PayloadsHead(s.queue);
    } else {
      JustSentinel(s.queue);
    }
  }

  lemma JustSentinel(items: seq<Item>)
    requires items != [] && items[0].Sentinel?
    ensures |items| == 1 ==> Payloads(items) == [] && Payloads(items[1..]) == []
  {
  }

  lemma FinalKeeps(s: Stream, enc: Encoder, torn: Option<nat>)
    requires Sane(s, enc) && s.writer.Sealing?
    ensures Sane(FinalWrite(s, torn), enc)
  {
    hide EndLine, Reasonable, Lines, Payloads;
    NothingYet(enc);
    TerminalFits(s, enc);
  }

  lemma WriterKeeps(s: Stream, started: bool, enc: Encoder, step: Step)
    requires Sane(s, enc) && Enabled(s, step) && Framed(enc)
    requires step.DoOpen? || step.DoGet? || step.DoWrite? || step.DoFinalCheck? || step.DoFinalRead?
             || step.DoFinalWrite? || step.DoDie?
    ensures Sane(Take(s, started, enc, step), enc)
  {
    hide EndLine, Reasonable, Lines, Payloads, Framed;
    match step {
      case DoGet => GetKeeps(s, enc);
      case DoWrite(torn) => WriteKeeps(s, enc, torn);
      case DoFinalWrite(torn) => FinalKeeps(s, enc, torn);
      case _ => NothingYet(enc);
    }
  }

  lemma NothingYet(enc: Encoder)
    ensures Lines(enc, []) == [] && Payloads([]) == []
  {
  }

  // ---------------------------------------------------------------- the result

  lemma {:induction false} EveryInterleavingIsSane(started: bool, enc: Encoder, steps: seq<Step>, s: Stream)
    requires Framed(enc) && Reaches(started, enc, steps, s)
    ensures Sane(s, enc)
  {
    hide Sane, Framed, Take, Enabled;
    if steps == [] {
      FreshIsSane(started, enc);
    } else {
      var before :| Reaches(started, enc, Front(steps), before) && Enabled(before, Last(steps))
        && s == Take(before, started, enc, Last(steps));
      EveryInterleavingIsSane(started, enc, Front(steps), before);
      match Last(steps) {
        case DoOpen(_) => WriterKeeps(before, started, enc, Last(steps));
        case DoGet => WriterKeeps(before, started, enc, Last(steps));
        case DoWrite(_) => WriterKeeps(before, started, enc, Last(steps));
        case DoFinalCheck => WriterKeeps(before, started, enc, Last(steps));
        case DoFinalRead => WriterKeeps(before, started, enc, Last(steps));
        case DoFinalWrite(_) => WriterKeeps(before, started, enc, Last(steps));
        case DoDie => WriterKeeps(before, started, enc, Last(steps));
        case _ => ProducerKeeps(before, started, enc, Last(steps));
      }
    }
  }

  /**
   Under every interleaving: the file stays within its budget and holds records numbered without a gap,
   no put ever finds the queue full, a stage_end line always fits, and a file that says it is complete
   holds exactly the records that were queued -- which are the records that were offered if and only if no
   interrupt hit the lifecycle thread between a check and its put.
   */
  lemma LiveFileTellsTheTruth(started: bool, enc: Encoder, steps: seq<Step>, s: Stream)
    requires Framed(enc) && Reaches(started, enc, steps, s)
    ensures |s.file| <= MAX_BYTES && Lines(enc, s.wrote) <= s.file
    ensures s.producer.Offering? || s.producer.ClosingSet? ==> |s.queue| < DEPTH + 1
    ensures s.writer.Sealing? && s.open ==> s.written + |EndLine(s.next, TerminalOf(s), s.writer.complete)| <= MAX_BYTES
    ensures s.sealed == Some(true) ==>
              && s.terminal.Some? && s.file == Lines(enc, s.admitted) + EndLine(|s.admitted|, s.terminal.value, true)
              && (s.offered == s.admitted <==> !s.interrupted)
  {
    hide Lines, EndLine, Reaches, Framed, Reasonable;
    EveryInterleavingIsSane(started, enc, steps, s);
    if s.writer.Sealing? {
      TerminalFits(s, enc);
    }
  }

  lemma ReachesMore(started: bool, enc: Encoder, steps: seq<Step>, s: Stream, step: Step)
    requires Reaches(started, enc, steps, s) && Enabled(s, step)
    ensures Reaches(started, enc, steps + [step], Take(s, started, enc, step))
  {
    hide Enabled, Take;
    assert Front(steps + [step]) == steps;
  }

  lemma ReachesThree(started: bool, enc: Encoder, steps: seq<Step>, s: Stream, a: Step, b: Step, c: Step)
    requires Reaches(started, enc, steps, s) && Enabled(s, a) && Enabled(Take(s, started, enc, a), b)
    requires Enabled(Take(Take(s, started, enc, a), started, enc, b), c)
    ensures Reaches(started, enc, steps + [a] + [b] + [c],
                    Take(Take(Take(s, started, enc, a), started, enc, b), started, enc, c))
  {
    hide Reaches, Take, Enabled;
    ReachesMore(started, enc, steps, s, a);
    ReachesMore(started, enc, steps + [a], Take(s, started, enc, a), b);
    ReachesMore(started, enc, steps + [a] + [b], Take(Take(s, started, enc, a), started, enc, b), c);
  }

  function Interrupted(p: Payload): (s: Stream) {
    Fresh(true).(writer := Waiting, open := true, offered := [p], interrupted := true)
  }

  lemma InterruptedIsReached(enc: Encoder, p: Payload) returns (steps: seq<Step>)
    ensures Reaches(true, enc, steps, Interrupted(p))
  {
    hide Reaches;
    FreshIsReached(enc);
    ReachesThree(true, enc, [], Fresh(true), DoOpen(true), DoOfferCheck(p), DoInterrupt);
    steps := [] + [DoOpen(true)] + [DoOfferCheck(p)] + [DoInterrupt];
    assert [] + [p] == [p];
  }

  lemma ClosedIsReached(enc: Encoder, p: Payload, t: Terminal) returns (steps: seq<Step>)
    requires Reasonable(t)
    ensures Reaches(true, enc, steps, Interrupted(p).(terminal := Some(t), closing := true, queue := [Sentinel],
                                                      producer := Closed))
  {
    hide Reaches, Reasonable;
    var before := InterruptedIsReached(enc, p);
    ReachesThree(true, enc, before, Interrupted(p), DoCloseTerminal(t), DoCloseFlag, DoCloseSend);
    steps := before + [DoCloseTerminal(t)] + [DoCloseFlag] + [DoCloseSend];
    assert [] + [Sentinel] == [Sentinel];
  }

  /**
   The exception is real: an interrupt between check and put loses a record from a stream that calls itself
   complete.
   */
  lemma InterruptedRecordIsLost(enc: Encoder, p: Payload, t: Terminal) returns (steps: seq<Step>, s: Stream)
    requires Reasonable(t)
    ensures Reaches(true, enc, steps, s) && s.sealed == Some(true) && s.offered == [p] && s.wrote == []
  {
    hide EndLine, Reaches, Power10, Reasonable;
    Power10Grows(100);
    EndLineFits(0, t, true);
    var before := ClosedIsReached(enc, p, t);
    var s6 := Interrupted(p).(terminal := Some(t), closing := true, queue := [Sentinel], producer := Closed);
    ReachesThree(true, enc, before, s6, DoGet, DoFinalCheck, DoFinalRead);
    steps := before + [DoGet] + [DoFinalCheck] + [DoFinalRead];
    var s9 := s6.(queue := [], writer := Sealing(true));
    assert Reaches(true, enc, steps, s9);
    ReachesMore(true, enc, steps, s9, DoFinalWrite(None));
    steps, s := steps + [DoFinalWrite(None)], FinalWrite(s9, None);
  }

  lemma FreshIsReached(enc: Encoder)
    ensures Reaches(true, enc, [], Fresh(true))
  {
  }

  // ---------------------------------------------------------------- the object

  /**
   The two threads' methods, one atomic part each; the ghost fields say where the threads are and what has
   happened.
   */
  class Live {
    const started: bool
    const encode: Encoder
    var queue: seq<Item>
    var closing: bool
    var incomplete: bool
    var terminal: Option<Terminal>
    var open: bool
    var file: seq<Byte>
    var written: nat
    var next: nat
    ghost var producer: Producer
    ghost var writer: Writer
    ghost var offered: seq<Payload>
    ghost var admitted: seq<Payload>
    ghost var wrote: seq<Payload>
    ghost var interrupted: bool
    ghost var sealed: Option<bool>

    ghost function State(): Stream
      reads this
    {
      Stream(queue, closing, incomplete, terminal, producer, writer, open, file, written, next, offered, admitted,
             wrote, interrupted, sealed)
    }

    ghost predicate Valid()
      reads this
    {
      Sane(State(), encode)
    }

    constructor (threadStarted: bool, encoder: Encoder)
      ensures started == threadStarted && encode == encoder && State() == Fresh(threadStarted) && Valid()
    {
      hide Sane;
      FreshIsSane(threadStarted, encoder);
      started, encode := threadStarted, encoder;
      queue, closing, incomplete, terminal := [], false, !threadStarted, None;
      open, file, written, next := false, [], 0, 0;
      producer, writer := Idle, if threadStarted then Starting else Ended;
      offered, admitted, wrote, interrupted, sealed := [], [], [], false, None;
    }

    /** `_offer` up to its put. */
    method Offer(p: Payload) returns (go: bool)
      requires producer.Idle? || producer.Closed?
      modifies this
      ensures State() == OfferCheck(old(State()), started, p) && (go ==> producer == Offering(p))
      ensures Framed(encode) && old(Valid()) ==> Valid()
    {
      hide Sane;
      ghost var before := State();
      if Framed(encode) && Sane(before, encode) {
        OfferKeeps(before, started, encode, p);
      }
      if producer.Idle? {
        offered := offered + [p];
      }
      if !started || closing || |queue| >= DEPTH {
        incomplete := true;
        return false;
      }
      producer := Offering(p);
      return true;
    }

    method Put(p: Payload)
      requires producer == Offering(p)
      modifies this
      ensures State() == OfferPut(old(State()))
      ensures Framed(encode) && old(Valid()) ==> Valid()
    {
      hide Sane;
      ghost var before := State();
      if Framed(encode) && Sane(before, encode) {
        PutKeeps(before, encode);
      }
      queue := queue + [Optional(p)];
      admitted, producer := admitted + [p], Idle;
    }

    method SetTerminal(t: Terminal)
      requires producer.Idle?
      modifies this
      ensures State() == CloseTerminal(old(State()), t)
      ensures Framed(encode) && old(Valid()) && Reasonable(t) ==> Valid()
    {
      hide Sane;
      ghost var before := State();
      if Framed(encode) && Sane(before, encode) && Reasonable(t) {
        TerminalKeeps(before, encode, t);
      }
      terminal := Some(t);
      producer := TerminalSet;
    }

    method SetClosing()
      requires producer.TerminalSet?
      modifies this
      ensures State() == CloseFlag(old(State()))
      ensures Framed(encode) && old(Valid()) ==> Valid()
    {
      hide Sane;
      ghost var before := State();
      if Framed(encode) && Sane(before, encode) {
        FlagKeeps(before, encode);
      }
      closing := true;
      producer := ClosingSet;
    }

    method SendSentinel()
      requires producer.ClosingSet?
      modifies this
      ensures State() == CloseSend(old(State()))
      ensures Framed(encode) && old(Valid()) ==> Valid()
    {
      hide Sane;
      ghost var before := State();
      if Framed(encode) && Sane(before, encode) {
        SendKeeps(before, encode);
      }
      if |queue| < DEPTH + 1 {
        queue := queue + [Sentinel];
      } else {
        incomplete := true;
      }
      producer := Closed;
    }

    method Open(ok: bool)
      requires writer.Starting?
      modifies this
      ensures State() == WriterOpen(old(State()), ok)
      ensures Framed(encode) && old(Valid()) ==> Valid()
    {
      hide Sane;
      ghost var before := State();
      if Framed(encode) && Sane(before, encode) {
        WriterKeeps(before, started, encode, DoOpen(ok));
      }
      open := ok;
      if !ok {
        incomplete := true;
      }
      writer := Waiting;
    }

    method Get() returns (item: Item)
      requires writer.Waiting? && queue != []
      modifies this
      ensures State() == WriterGet(old(State())) && writer == Holding(item)
      ensures Framed(encode) && old(Valid()) ==> Valid()
    {
      hide Sane;
      ghost var before := State();
      if Framed(encode) && Sane(before, encode) {
        GetKeeps(before, encode);
      }
      item := queue[0];
      queue := queue[1..];
      writer := Holding(item);
    }

    /** A write of one line, which may fail after some of its bytes; only a whole line is counted. */
    method Append(line: seq<Byte>, torn: Option<nat>) returns (ok: bool)
      modifies this`file, this`written, this`next
      ensures ok == torn.None?
      ensures ok ==> file == old(file) + line && written == old(written) + |line| && next == old(next) + 1
      ensures !ok ==> file == old(file) + Torn(line, torn.value) && written == old(written) && next == old(next)
    {
      if torn.Some? {
        file := file + Torn(line, torn.value);
        return false;
      }
      file := file + line;
      written, next := written + |line|, next + 1;
      return true;
    }

    method PutLine(p: Payload, line: seq<Byte>, torn: Option<nat>)
      requires writer == Holding(Optional(p))
      modifies this`file, this`open, this`incomplete, this`writer, this`written, this`next, this`wrote
      ensures State() == WriteLine(old(State()), line, torn)
    {
      hide Torn;
      var ok := Append(line, torn);
      if ok {
        wrote := wrote + [p];
      } else {
        incomplete, open := true, false;
      }
      writer := Waiting;
    }

    method Write(p: Payload, torn: Option<nat>)
      requires writer == Holding(Optional(p))
      modifies this`file, this`open, this`incomplete, this`writer, this`written, this`next, this`wrote
      ensures State() == WriteRecord(old(State()), encode, torn)
      ensures Framed(encode) && old(Valid()) ==> Valid()
    {
      hide WriteLine, Sane, Framed;
      ghost var before := State();
      if Framed(encode) && Sane(before, encode) {
        WriteKeeps(before, encode, torn);
      }
      if open {
        var line := encode(p, next);
        if line.Some? && written + |line.value| + RESERVE <= MAX_BYTES {
          PutLine(p, line.value, torn);
          return;
        }
      }
      incomplete, writer := true, Waiting;
    }

    /** `_finalize` up to its reading of the incomplete flag. */
    method Finish() returns (complete: bool)
      requires writer == Holding(Sentinel)
      modifies this
      ensures State() == FinalRead(FinalCheck(old(State()))) && writer == Sealing(complete)
      ensures Framed(encode) && old(Valid()) ==> Valid()
    {
      hide Sane;
      ghost var before := State();
      if Framed(encode) && Sane(before, encode) {
        WriterKeeps(before, started, encode, DoFinalCheck);
        WriterKeeps(FinalCheck(before), started, encode, DoFinalRead);
      }
      if queue != [] {
        incomplete := true;
      }
      complete := !incomplete;
      writer := Sealing(complete);
    }

    /** The terminal line, numbered next. */
    method TerminalLine(complete: bool) returns (line: seq<Byte>)
      ensures line == EndLine(next, TerminalOf(State()), complete)
    {
      hide EndLine;
      var t := if terminal.Some? then terminal.value else Terminal(0, None, false);
      line := EndLine(next, t, complete);
    }

    method CloseWith(line: seq<Byte>, complete: bool, torn: Option<nat>)
      requires writer == Sealing(complete)
      modifies this`file, this`open, this`writer, this`written, this`next, this`sealed
      ensures State() == FinalLine(old(State()), line, torn)
    {
      hide Torn;
      if open && written + |line| <= MAX_BYTES {
        var ok := Append(line, torn);
        if ok {
          sealed := Some(complete);
        }
      }
      open, writer := false, Ended;
    }

    method WriteEnd(complete: bool, torn: Option<nat>)
      requires writer == Sealing(complete)
      modifies this`file, this`open, this`writer, this`written, this`next, this`sealed
      ensures State() == FinalWrite(old(State()), torn)
      ensures Framed(encode) && old(Valid()) ==> Valid()
    {
      hide EndLine, FinalLine, Sane, Framed;
      ghost var before := State();
      if Framed(encode) && Sane(before, encode) {
        FinalKeeps(before, encode, torn);
      }
      var line := TerminalLine(complete);
      CloseWith(line, complete, torn);
    }
  }
}

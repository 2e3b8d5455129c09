/**
 One bounded, read-only window over a live stream that may grow while it is read, and what any
 sequence of such windows adds up to (orchestrator/watch.py).
 */
module Watch {
  import opened Prelude
  import opened Bytes
  import opened Base64
  import LiveStream

  const RECORD_MAX := LiveStream.MAX_BYTES
  const MIN_WINDOW := 2 * RECORD_MAX

  datatype WatchError =
    | WindowTooSmall | NoLiveStream | CursorMalformed | CursorOutOfRange | CursorInterior
    | StreamTruncated | OversizedRecord | UnterminatedTail | Unreachable

  /** Records as base64 text, in file order. */
  datatype Window = Window(records: seq<string>, next: nat, eof: bool, size: nat)

  // ---------------------------------------------------------------- cursors

  const COLON: Byte := 58

  function FormatCursor(token: seq<Byte>, offset: nat): (raw: seq<Byte>) {
    token + [COLON] + Decimal(offset)
  }

  function FirstOf(s: seq<Byte>, b: Byte): (k: Option<nat>)
    ensures k.Some? ==> k.value < |s| && s[k.value] == b && b !in s[..k.value]
    ensures k.None? ==> b !in s
  {
    if s == [] then None
    else if s[0] == b then Some(0)
    else
      var k := FirstOf(s[1..], b);
      if k.None? then None
      else
        assert s[..k.value + 1] == [s[0]] + s[1..][..k.value];
        Some(k.value + 1)
  }

  lemma {:induction false} FirstIs(s: seq<Byte>, b: Byte, k: nat)
    requires k < |s| && s[k] == b && b !in s[..k]
    ensures FirstOf(s, b) == Some(k)
  {
    if k > 0 {
      assert s[..k][0] == s[0] && s[1..][..k - 1] == s[..k][1..];
      FirstIs(s[1..], b, k - 1);
    }
  }

  predicate Digits(s: seq<Byte>) {
    s != [] && forall i :: 0 <= i < |s| ==> 48 <= s[i] <= 57
  }

  /** `<run_token>:<offset>`, split at the first colon, nothing repaired. */
  function ParseCursor(raw: seq<Byte>): (r: Result<(seq<Byte>, int), WatchError>) {
    match FirstOf(raw, COLON)
    case None => Err(CursorMalformed)
    case Some(k) =>
      if k == 0 || !Digits(raw[k + 1..]) then Err(CursorMalformed) else Ok((raw[..k], Value(raw[k + 1..])))
  }

  /** A formatted cursor parses back exactly when its token is non-empty and has no colon. */
  lemma CursorRoundTrip(token: seq<Byte>, offset: nat)
    ensures ParseCursor(FormatCursor(token, offset)) == Ok((token, offset)) <==> token != [] && COLON !in token
  {
    var raw := FormatCursor(token, offset);
    assert raw[|token|] == COLON && raw[..|token|] == token && raw[|token| + 1..] == Decimal(offset);
    DecimalValue(offset);
    if COLON !in token {
      FirstIs(raw, COLON, |token|);
    } else {
      var i := FirstOf(token, COLON).value;
      assert raw[..i] == token[..i] && raw[i] == COLON;
      FirstIs(raw, COLON, i);
    }
  }

  // ---------------------------------------------------------------- framing

  /** The admissible complete lines a buffer starts with. */
  function Frames(buf: seq<Byte>): (frames: seq<seq<Byte>>)
    ensures |frames| <= |buf|
  {
    match FirstOf(buf, NEWLINE)
    case None => []
    case Some(k) => if k + 1 > RECORD_MAX then [] else [buf[..k + 1]] + Frames(buf[k + 1..])
  }

  function Joined(frames: seq<seq<Byte>>): (bytes: seq<Byte>) {
    if frames == [] then [] else frames[0] + Joined(frames[1..])
  }

  function EncodeAll(frames: seq<seq<Byte>>): (records: seq<string>)
    ensures |records| == |frames|
  {
    if frames == [] then [] else [Encode(frames[0])] + EncodeAll(frames[1..])
  }

  /** The terminated line that stopped framing was longer than any the writer admits. */
  predicate Oversized(rest: seq<Byte>) {
    FirstOf(rest, NEWLINE).Some? && FirstOf(rest, NEWLINE).value + 1 > RECORD_MAX
  }

  function Least(a: nat, b: nat): nat {
    if a < b then a else b
  }

  /** What one call answers about a snapshot; the six rows of the source in their order. */
  function WindowOf(snapshot: seq<Byte>, cursor: nat, window: nat): (r: Result<Window, WatchError>) {
    var size := |snapshot|;
    if window < MIN_WINDOW then Err(WindowTooSmall)
    else if cursor > size then Err(CursorOutOfRange)
    else if cursor > 0 && snapshot[cursor - 1] != NEWLINE then Err(CursorInterior)
    else
      var toRead := Least(window, size - cursor);
      var buf := snapshot[cursor..cursor + toRead];
      var frames := Frames(buf);
      var pos := |Joined(frames)|;
      var reachedEnd := cursor + toRead == size;
      if frames != [] then Ok(Window(EncodeAll(frames), cursor + pos, reachedEnd, size))
      else if Oversized(buf) then Err(OversizedRecord)
      else if toRead == 0 then Ok(Window([], cursor, true, size))
      else if toRead >= RECORD_MAX then Err(OversizedRecord)
      else if reachedEnd then Err(UnterminatedTail)
      else Err(Unreachable)
  }

  // ---------------------------------------------------------------- the reader

  /** The file: other processes may append while it is read; unless it is append-only, they may do anything. */
  class LiveFile {
    const appendOnly: bool
    var bytes: seq<Byte>

    constructor (growing: bool, contents: seq<Byte>)
      ensures appendOnly == growing && bytes == contents
    {
      appendOnly := growing;
      bytes := contents;
    }

    /** Whatever happens to the file between two system calls. */
    method Elapse()
      modifies this
      ensures appendOnly ==> old(bytes) <= bytes
    {
      var more: seq<Byte> := *;
      if appendOnly {
        bytes := bytes + more;
      } else {
        bytes := more;
      }
    }

    method Size() returns (n: nat)
      modifies this
      ensures appendOnly ==> old(bytes) <= bytes
      ensures n == |bytes|
    {
      Elapse();
      n := |bytes|;
    }

    /** `pread`: some of the bytes asked for, at least one unless there is none. */
    method Pread(n: nat, offset: nat) returns (chunk: seq<Byte>)
      modifies this
      ensures appendOnly ==> old(bytes) <= bytes
      ensures |chunk| <= n && offset + |chunk| <= |bytes| + offset
      ensures chunk != [] ==> offset + |chunk| <= |bytes| && chunk == bytes[offset..offset + |chunk|]
      ensures n > 0 && offset < |bytes| ==> chunk != []
    {
      Elapse();
      if n == 0 || offset >= |bytes| {
        return [];
      }
      var k: nat := *;
      var available := Least(n, |bytes| - offset);
      var taken := if 1 <= k <= available then k else available;
      chunk := bytes[offset..offset + taken];
    }
  }

  lemma FramesStep(buf: seq<Byte>, pos: nat, newline: nat)
    requires pos <= newline < |buf| && buf[newline] == NEWLINE && NEWLINE !in buf[pos..newline]
    ensures FirstOf(buf[pos..], NEWLINE) == Some(newline - pos)
    ensures newline - pos + 1 <= RECORD_MAX ==>
            Frames(buf[pos..]) == [buf[pos..newline + 1]] + Frames(buf[newline + 1..])
  {
    var rest, k := buf[pos..], newline - pos;
    assert rest[k] == NEWLINE && rest[..k] == buf[pos..newline];
    FirstIs(rest, NEWLINE, k);
    assert rest[k + 1..] == buf[newline + 1..] && rest[..k + 1] == buf[pos..newline + 1];
  }

  lemma {:induction false} JoinedConcat(a: seq<seq<Byte>>, b: seq<seq<Byte>>)
    ensures Joined(a + b) == Joined(a) + Joined(b)
  {
    if a == [] {
      assert a + b == b;
    } else {
      JoinedConcat(a[1..], b);
      assert (a + b)[1..] == a[1..] + b;
    }
  }

  /** `bytes.find`: the next newline from a position. */
  method Find(buf: seq<Byte>, pos: nat) returns (k: Option<nat>)
    requires pos <= |buf|
    ensures k.Some? ==> pos <= k.value < |buf| && buf[k.value] == NEWLINE && NEWLINE !in buf[pos..k.value]
    ensures k.None? ==> NEWLINE !in buf[pos..]
  {
    var i := pos;
    while i < |buf|
      invariant pos <= i <= |buf| && NEWLINE !in buf[pos..i]
    {
      if buf[i] == NEWLINE {
        return Some(i);
      }
      assert buf[pos..i + 1] == buf[pos..i] + [buf[i]];
      i := i + 1;
    }
    return None;
  }

  /** One admissible line moves from the buffer to the frames. */
  lemma ScanStep(buf: seq<Byte>, frames: seq<seq<Byte>>, pos: nat, newline: nat)
    requires pos <= newline < |buf| && buf[newline] == NEWLINE && NEWLINE !in buf[pos..newline]
             && newline - pos + 1 <= RECORD_MAX
    requires frames + Frames(buf[pos..]) == Frames(buf) && pos == |Joined(frames)|
    ensures var longer := frames + [buf[pos..newline + 1]];
            longer + Frames(buf[newline + 1..]) == Frames(buf) && newline + 1 == |Joined(longer)|
  {
    hide Frames, FirstOf;
    FramesStep(buf, pos, newline);
    var frame := buf[pos..newline + 1];
    assert Joined([frame]) == frame + Joined([]);
    JoinedConcat(frames, [frame]);
    assert frames + ([frame] + Frames(buf[newline + 1..])) == frames + [frame] + Frames(buf[newline + 1..]);
  }

  lemma ScanEnds(buf: seq<Byte>)
    ensures NEWLINE !in buf ==> Frames(buf) == [] && !Oversized(buf)
    ensures Oversized(buf) ==> Frames(buf) == []
  {
  }

  /** The framing scan. */
  method ScanFrames(buf: seq<Byte>) returns (frames: seq<seq<Byte>>, pos: nat, oversized: bool)
    ensures frames == Frames(buf) && pos == |Joined(frames)|
    ensures frames == [] ==> (oversized <==> Oversized(buf))
  {
    hide FirstOf, Frames;
    frames, pos, oversized := [], 0, false;
    assert buf[0..] == buf;
    while true
      invariant pos <= |buf| && frames + Frames(buf[pos..]) == Frames(buf) && pos == |Joined(frames)|
      invariant frames == [] ==> pos == 0
      decreases |buf| - pos
    {
      var newline := Find(buf, pos);
      ScanEnds(buf[pos..]);
      if newline.None? {
        return;
      }
      if newline.value - pos + 1 > RECORD_MAX {
        FramesStep(buf, pos, newline.value);
        oversized := true;
        return;
      }
      ScanStep(buf, frames, pos, newline.value);
      frames := frames + [buf[pos..newline.value + 1]];
      pos := newline.value + 1;
    }
  }

  /** The read loop: it either fills the buffer or finds that the file shrank. */
  method ReadBuffer(file: LiveFile, cursor: nat, toRead: nat, ghost snapshot: seq<Byte>) returns (buf: seq<Byte>)
    requires cursor + toRead <= |snapshot| && (file.appendOnly ==> snapshot <= file.bytes)
    modifies file
    ensures file.appendOnly ==> old(file.bytes) <= file.bytes && buf == snapshot[cursor..cursor + toRead]
    ensures |buf| <= toRead
  {
    buf := [];
    while |buf| < toRead
      invariant |buf| <= toRead
      invariant file.appendOnly ==> old(file.bytes) <= file.bytes && buf == snapshot[cursor..cursor + |buf|]
      decreases toRead - |buf|
    {
      var chunk := file.Pread(toRead - |buf|, cursor + |buf|);
      if chunk == [] {
        return;
      }
      assert file.appendOnly ==> chunk == snapshot[cursor + |buf|..cursor + |buf| + |chunk|];
      buf := buf + chunk;
    }
  }

  /** `read_window`: the answer is about the one size taken before any read, whatever was appended meanwhile. */
  method ReadWindow(file: LiveFile?, cursor: nat, window: nat) returns (r: Result<Window, WatchError>,
        ghost snapshot: seq<Byte>)
    modifies file
    ensures file == null && window >= MIN_WINDOW ==> r == Err(NoLiveStream)
    ensures file != null && file.appendOnly ==>
            old(file.bytes) <= snapshot <= file.bytes && r == WindowOf(snapshot, cursor, window)
    ensures r == Err(StreamTruncated) ==> file != null && !file.appendOnly
  {
    hide FirstOf, Frames, Joined, EncodeAll, Oversized;
    snapshot := if file == null then [] else file.bytes;
    if window < MIN_WINDOW {
      return Err(WindowTooSmall), snapshot;
    }
    if file == null {
      return Err(NoLiveStream), snapshot;
    }
    var size := file.Size();
    snapshot := file.bytes;
    if cursor > size {
      return Err(CursorOutOfRange), snapshot;
    }
    if cursor > 0 {
      var probe := file.Pread(1, cursor - 1);
      if probe != [NEWLINE] {
        return Err(CursorInterior), snapshot;
      }
    }
    var toRead := Least(window, size - cursor);
    var buf := ReadBuffer(file, cursor, toRead, snapshot);
    if |buf| < toRead {
      return Err(StreamTruncated), snapshot;
    }
    var frames, pos, oversized := ScanFrames(buf);
    var reachedEnd := cursor + toRead == size;
    if frames != [] {
      return Ok(Window(EncodeAll(frames), cursor + pos, reachedEnd, size)), snapshot;
    }
    if oversized {
      return Err(OversizedRecord), snapshot;
    }
    if toRead == 0 {
      return Ok(Window([], cursor, true, size)), snapshot;
    }
    if toRead >= RECORD_MAX {
      return Err(OversizedRecord), snapshot;
    }
    if reachedEnd {
      return Err(UnterminatedTail), snapshot;
    }
    assert false;
  }

  // ---------------------------------------------------------------- what a window covers

  lemma {:induction false} FramesCover(buf: seq<Byte>)
    ensures Joined(Frames(buf)) <= buf
    ensures Frames(buf) != [] ==> Joined(Frames(buf)) != [] && Last(Joined(Frames(buf))) == NEWLINE
  {
    hide FirstOf;
    var k := FirstOf(buf, NEWLINE);
    if k.Some? && k.value + 1 <= RECORD_MAX {
      var rest := buf[k.value + 1..];
      FramesCover(rest);
      assert Frames(buf)[0] == buf[..k.value + 1] && Frames(buf)[1..] == Frames(rest);
      assert buf == buf[..k.value + 1] + rest;
    }
  }

  function Decoded(records: seq<string>): (bytes: Option<seq<Byte>>) {
    if records == [] then Some([])
    else
      var first, rest := Decode(records[0]), Decoded(records[1..]);
      if first.None? || rest.None? then None else Some(first.value + rest.value)
  }

  lemma {:induction false} DecodedIsJoined(frames: seq<seq<Byte>>)
    ensures Decoded(EncodeAll(frames)) == Some(Joined(frames))
  {
    hide Encode, Decode;
    if frames != [] {
      RoundTrip(frames[0]);
      DecodedIsJoined(frames[1..]);
    }
  }

  predicate Boundary(file: seq<Byte>, cursor: nat) {
    cursor <= |file| && (cursor > 0 ==> file[cursor - 1] == NEWLINE)
  }

  /**
   A successful window returns exactly the bytes it moves over, up to a record boundary, and moves unless it is
   at the end.
   */
  lemma WindowCovers(snapshot: seq<Byte>, cursor: nat, window: nat)
    requires WindowOf(snapshot, cursor, window).Ok?
    ensures var w := WindowOf(snapshot, cursor, window).value;
            && cursor <= w.next <= |snapshot| && w.size == |snapshot|
            && Boundary(snapshot, cursor) && Boundary(snapshot, w.next)
            && Decoded(w.records) == Some(snapshot[cursor..w.next])
            && (w.next > cursor || cursor == |snapshot|)
            && (w.next == |snapshot| ==> w.eof) && (w.eof ==> |snapshot| - cursor <= window)
  {
    hide FirstOf, Frames, Joined, EncodeAll, Oversized, Decoded;
    var toRead := Least(window, |snapshot| - cursor);
    var buf := snapshot[cursor..cursor + toRead];
    FramesCover(buf);
    DecodedIsJoined(Frames(buf));
    DecodedIsJoined([]);
    NothingJoined();
    var pos := |Joined(Frames(buf))|;
    assert buf[..pos] == Joined(Frames(buf)) && buf[..pos] == snapshot[cursor..cursor + pos];
    if pos > 0 {
      assert Last(Joined(Frames(buf))) == buf[pos - 1] == snapshot[cursor + pos - 1];
    }
  }

  lemma NothingJoined()
    ensures Joined([]) == [] && EncodeAll([]) == []
  {
  }

  /** The last row is never reached. */
  lemma RowSixIsUnreachable(snapshot: seq<Byte>, cursor: nat, window: nat)
    ensures WindowOf(snapshot, cursor, window) != Err(Unreachable)
  {
    hide FirstOf, Frames, Joined, EncodeAll, Oversized;
  }

  // ---------------------------------------------------------------- sequences of windows

  /** One call: the snapshot it saw, the window size it asked for and its answer. */
  datatype Read = Read(snapshot: seq<Byte>, window: nat, answer: Result<Window, WatchError>)

  /** The cursor a caller feeds back: the last successful answer's, and zero before the first. */
  function CursorAfter(calls: seq<Read>): (cursor: nat) {
    if calls == [] then 0
    else if Last(calls).answer.Ok? then Last(calls).answer.value.next else CursorAfter(Front(calls))
  }

  /** Calls that feed the cursor back, while the file is only appended to. */
  ghost predicate Polls(file: seq<Byte>, calls: seq<Read>) {
    && (forall i :: 0 <= i < |calls| ==>
          calls[i].answer == WindowOf(calls[i].snapshot, CursorAfter(calls[..i]), calls[i].window))
    && (forall i :: 0 <= i < |calls| ==> calls[i].snapshot <= file)
  }

  function AllDecoded(calls: seq<Read>): (bytes: Option<seq<Byte>>) {
    if calls == [] then Some([])
    else
      var before := AllDecoded(Front(calls));
      if Last(calls).answer.Err? then before
      else
        var last := Decoded(Last(calls).answer.value.records);
        if before.None? || last.None? then None else Some(before.value + last.value)
  }

  /**
   Whatever windows are asked for and whatever is appended in between, the records add up to the file up to the
   cursor.
   */
  lemma {:induction false} PollsRebuildTheFile(file: seq<Byte>, calls: seq<Read>)
    requires Polls(file, calls)
    ensures Boundary(file, CursorAfter(calls))
    ensures AllDecoded(calls) == Some(file[..CursorAfter(calls)])
  {
    hide WindowOf, Decoded;
    if calls != [] {
      var before := Front(calls);
      assert Polls(file, before) by {
        forall i | 0 <= i < |before| ensures before[i].answer ==
          WindowOf(before[i].snapshot, CursorAfter(before[..i]), before[i].window) {
          assert before[..i] == calls[..i];
        }
      }
      PollsRebuildTheFile(file, before);
      var n := |calls| - 1;
      assert calls[..n] == before && Last(calls) == calls[n];
      if Last(calls).answer.Ok? {
        WindowCovers(calls[n].snapshot, CursorAfter(before), calls[n].window);
        assert file[..CursorAfter(calls)] == file[..CursorAfter(before)]
               + file[CursorAfter(before)..CursorAfter(calls)];
        assert calls[n].snapshot[CursorAfter(before)..CursorAfter(calls)] ==
               file[CursorAfter(before)..CursorAfter(calls)];
      }
    }
  }

  /**
   A cursor once fed back stays usable: later snapshots contain it as a boundary, so no later call can find it
   out of range or interior.
   */
  lemma FedBackCursorIsAccepted(file: seq<Byte>, calls: seq<Read>, later: seq<Byte>, window: nat)
    requires Polls(file, calls) && file <= later
    ensures WindowOf(later, CursorAfter(calls), window) !in {Err(CursorOutOfRange), Err(CursorInterior)}
  {
    hide FirstOf, Frames, Joined, EncodeAll, Oversized;
    PollsRebuildTheFile(file, calls);
  }

  // ---------------------------------------------------------------- files of the live writer

  lemma {:induction false} LinesHaveNewline(enc: LiveStream.Encoder, payloads: seq<LiveStream.Payload>)
    requires LiveStream.Framed(enc)
    ensures LiveStream.Lines(enc, payloads) == [] || NEWLINE in LiveStream.Lines(enc, payloads)
  {
    if payloads != [] {
      LinesHaveNewline(enc, Front(payloads));
      var line := enc(Last(payloads), |payloads| - 1);
      if line.Some? {
        assert Last(line.value) in line.value;
      }
    }
  }

  /** No file the live writer can produce, in any interleaving, ever reads as oversized, wherever the window starts. */
  lemma LiveFilesAreNeverOversized(
      started: bool, enc: LiveStream.Encoder, steps: seq<LiveStream.Step>, s: LiveStream.Stream, cursor: nat,
        window: nat)
    requires LiveStream.Framed(enc) && LiveStream.Reaches(started, enc, steps, s)
    ensures WindowOf(s.file, cursor, window) != Err(OversizedRecord)
  {
    hide FirstOf, Frames, Joined, EncodeAll;
    hide LiveStream.Reaches, LiveStream.Queued, LiveStream.Accounted, LiveStream.EndLine, LiveStream.Lines;
    hide LiveStream.Framed;
    LiveStream.EveryInterleavingIsSane(started, enc, steps, s);
    var size := |s.file|;
    if cursor <= size && window >= MIN_WINDOW {
      var toRead := Least(window, size - cursor);
      var buf := s.file[cursor..cursor + toRead];
      ShortIsNeverOversized(buf);
      if toRead >= RECORD_MAX {
        assert buf == s.file;
        LinesHaveNewline(enc, s.wrote);
        FullFileHasNewline(s, enc);
        FramesFound(buf);
      }
    }
  }

  lemma FullFileHasNewline(s: LiveStream.Stream, enc: LiveStream.Encoder)
    requires LiveStream.OnDisk(s, enc) && |s.file| >= RECORD_MAX
    requires LiveStream.Lines(enc, s.wrote) == [] || NEWLINE in LiveStream.Lines(enc, s.wrote)
    ensures NEWLINE in s.file
  {
    hide LiveStream.EndLine, LiveStream.Lines;
    var lines := LiveStream.Lines(enc, s.wrote);
    var i :| 0 <= i < |lines| && lines[i] == NEWLINE;
    assert s.file[i] == NEWLINE;
  }

  lemma ShortIsNeverOversized(buf: seq<Byte>)
    requires |buf| <= RECORD_MAX
    ensures !Oversized(buf)
  {
  }

  lemma FramesFound(buf: seq<Byte>)
    requires NEWLINE in buf && !Oversized(buf)
    ensures Frames(buf) != []
  {
  }
}

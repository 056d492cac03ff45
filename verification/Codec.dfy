// The line codec with its cached scan position (src/codec.rs: encode_codec,
// decode_codec, Line and DirtyLine), and the bytes it works on.
module Codec {
  import opened Wrappers
  import opened Json
  import opened Message
  import opened JsonText
  import JsonUnique

  // ---- Splitting on newlines -----------------------------------------------------

  /** The index of the first newline, or the length if there is none. */
  function FirstNewline(bytes: seq<Byte>): (i: nat)
    ensures i <= |bytes|
  {
    if bytes == [] || bytes[0] == NEWLINE then 0 else 1 + FirstNewline(bytes[1..])
  }

  lemma {:induction false} FirstNewlineIs(bytes: seq<Byte>)
    ensures var i := FirstNewline(bytes); NoNewline(bytes[..i]) && (i < |bytes| ==> bytes[i] == NEWLINE)
  {
    if bytes != [] && bytes[0] != NEWLINE {
      FirstNewlineIs(bytes[1..]);
      var i := FirstNewline(bytes);
      assert bytes[..i] == [bytes[0]] + bytes[1..][..i - 1];
    }
  }

  datatype Split = Split(lines: seq<seq<Byte>>, rest: seq<Byte>)

  /** The plain split: all complete lines, and what follows the last newline. */
  function SplitLines(bytes: seq<Byte>): Split
    decreases |bytes|
  {
    var i := FirstNewline(bytes);
    if i == |bytes| then Split([], bytes)
    else
      var later := SplitLines(bytes[i + 1..]);
      Split([bytes[..i]] + later.lines, later.rest)
  }

  /** Lines, each ended by a newline, in front of what follows. */
  function JoinTo(lines: seq<seq<Byte>>, rest: seq<Byte>): seq<Byte> {
    if lines == [] then rest else EndLine(lines[0], JoinTo(lines[1..], rest))
  }

  function EndLine(line: seq<Byte>, rest: seq<Byte>): seq<Byte> {
    line + ([NEWLINE] + rest)
  }

  predicate Clean(lines: seq<seq<Byte>>) {
    lines == [] || (NoNewline(lines[0]) && Clean(lines[1..]))
  }

  lemma FirstNewlineAt(bytes: seq<Byte>, i: nat)
    requires i <= |bytes| && NoNewline(bytes[..i]) && (i < |bytes| ==> bytes[i] == NEWLINE)
    ensures FirstNewline(bytes) == i
  {
    var k := FirstNewline(bytes);
    FirstNewlineIs(bytes);
    assert forall m | 0 <= m < i :: bytes[m] == bytes[..i][m];
    assert forall m | 0 <= m < k :: bytes[m] == bytes[..k][m];
  }

  lemma CutLine(line: seq<Byte>, rest: seq<Byte>)
    requires NoNewline(line)
    ensures SplitLines(EndLine(line, rest)) == Split([line] + SplitLines(rest).lines, SplitLines(rest).rest)
  {
    var all := EndLine(line, rest);
    assert all[..|line|] == line && all[|line| + 1..] == rest;
    FirstNewlineAt(all, |line|);
  }

  lemma FirstOfAll(lines: seq<seq<Byte>>, more: seq<seq<Byte>>)
    requires lines != []
    ensures [lines[0]] + (lines[1..] + more) == lines + more
  {
  }

  /** Splitting takes lines off the front of any continuation. */
  lemma {:induction false} SplitAfterLines(lines: seq<seq<Byte>>, bytes: seq<Byte>)
    requires Clean(lines)
    ensures SplitLines(JoinTo(lines, bytes)) == Split(lines + SplitLines(bytes).lines, SplitLines(bytes).rest)
  {
    if lines == [] {
      assert [] + SplitLines(bytes).lines == SplitLines(bytes).lines;
    } else {
      CutLine(lines[0], JoinTo(lines[1..], bytes));
      SplitAfterLines(lines[1..], bytes);
      FirstOfAll(lines, SplitLines(bytes).lines);
    }
  }

  lemma SplitNothing(bytes: seq<Byte>)
    requires NoNewline(bytes)
    ensures SplitLines(bytes) == Split([], bytes)
  {
    assert bytes[..|bytes|] == bytes;
    FirstNewlineAt(bytes, |bytes|);
  }

  /** The split is the only way to read bytes as newline-free lines and a rest. */
  lemma SplitIsUnique(bytes: seq<Byte>, lines: seq<seq<Byte>>, rest: seq<Byte>)
    ensures bytes == JoinTo(lines, rest) && Clean(lines) && NoNewline(rest) <==> SplitLines(bytes) == Split(lines, rest)
  {
    if bytes == JoinTo(lines, rest) && Clean(lines) && NoNewline(rest) {
      SplitAfterLines(lines, rest);
      SplitNothing(rest);
      assert lines + [] == lines;
    }
    SplitIsClean(bytes);
  }

  lemma {:induction false} SplitIsClean(bytes: seq<Byte>)
    ensures var s := SplitLines(bytes); bytes == JoinTo(s.lines, s.rest) && Clean(s.lines) && NoNewline(s.rest)
    decreases |bytes|
  {
    var i := FirstNewline(bytes);
    CutAtFirst(bytes);
    if i < |bytes| {
      SplitIsClean(bytes[i + 1..]);
      ConsLine(bytes[..i], SplitLines(bytes[i + 1..]).lines, SplitLines(bytes).rest);
    }
  }

  lemma {:induction false} CutAtFirst(bytes: seq<Byte>)
    ensures var i := FirstNewline(bytes);
            && NoNewline(bytes[..i])
            && if i < |bytes| then bytes == EndLine(bytes[..i], bytes[i + 1..]) else bytes[..i] == bytes
  {
    var i := FirstNewline(bytes);
    FirstNewlineIs(bytes);
    if i < |bytes| {
      CutAt(bytes, i);
    }
  }

  lemma CutAt(bytes: seq<Byte>, i: nat)
    requires i < |bytes| && bytes[i] == NEWLINE
    ensures bytes == EndLine(bytes[..i], bytes[i + 1..])
  {
    assert bytes == bytes[..i] + bytes[i..] && bytes[i..] == [NEWLINE] + bytes[i + 1..];
  }

  lemma ConsLine(line: seq<Byte>, lines: seq<seq<Byte>>, rest: seq<Byte>)
    ensures JoinTo([line] + lines, rest) == EndLine(line, JoinTo(lines, rest))
    ensures Clean([line] + lines) <==> NoNewline(line) && Clean(lines)
  {
    assert ([line] + lines)[1..] == lines;
  }

  // ---- Decoding, specified ---------------------------------------------------------

  /** The codec's cached position and the buffer it is used with. */
  datatype Decoder = Decoder(position: nat, buffer: seq<Byte>)

  /** One call of decode: only the part after the position is scanned. */
  function DecodeStep(d: Decoder): (Decoder, Option<seq<Byte>>)
    requires d.position <= |d.buffer|
  {
    var end := d.position + FirstNewline(d.buffer[d.position..]);
    if end < |d.buffer|
    then (Decoder(0, d.buffer[end + 1..]), Some(d.buffer[..end]))
    else (Decoder(|d.buffer|, d.buffer), None)
  }

  /** How many bytes that call looks at. */
  function Examined(d: Decoder): nat
    requires d.position <= |d.buffer|
  {
    var i := FirstNewline(d.buffer[d.position..]);
    if d.position + i < |d.buffer| then i + 1 else i
  }

  /** The first i bytes after the position are no newlines. */
  predicate NoNewlineFrom(d: Decoder, i: nat) {
    d.position + i <= |d.buffer| && forall k | d.position <= k < d.position + i :: d.buffer[k] != NEWLINE
  }

  lemma DecodeStepIs(d: Decoder, i: nat)
    requires NoNewlineFrom(d, i)
    requires d.position + i < |d.buffer| ==> d.buffer[d.position + i] == NEWLINE
    ensures var end := d.position + i;
            if end < |d.buffer|
            then DecodeStep(d) == (Decoder(0, d.buffer[end..][1..]), Some(d.buffer[..end])) && Examined(d) == i + 1
            else DecodeStep(d) == (Decoder(|d.buffer|, d.buffer), None) && Examined(d) == i
  {
    FirstNewlineAt(d.buffer[d.position..], i);
  }

  /** The bytes are a line, the first line feed at or after the position, and a rest. */
  predicate CutsAt(d: Decoder, line: seq<Byte>, rest: seq<Byte>) {
    && d.position <= |line| && d.buffer == line + [0x0A] + rest
    && forall k | d.position <= k < |line| :: line[k] != 0x0A
  }

  lemma CutsAsSpecified(d: Decoder, line: seq<Byte>, rest: seq<Byte>)
    requires CutsAt(d, line, rest)
    ensures DecodeStep(d) == (Decoder(0, rest), Some(line))
  {
    assert forall k | d.position <= k < |line| :: d.buffer[k] == line[k];
    DecodeStepIs(d, |line| - d.position);
    assert d.buffer[..|line|] == line && d.buffer[|line|..][1..] == rest;
  }

  lemma SomeCut(d: Decoder, i: nat)
    requires NoNewlineFrom(d, i) && d.position + i < |d.buffer| && d.buffer[d.position + i] == NEWLINE
    ensures CutsAt(d, d.buffer[..d.position + i], d.buffer[d.position + i..][1..])
  {
    var end := d.position + i;
    assert d.buffer == d.buffer[..end] + [0x0A] + d.buffer[end..][1..];
  }

  /** A decode call takes off the bytes up to the first line feed at or after the
      position, and scans from the start again; without one it remembers the end. */
  lemma DecodeStepTakes(d: Decoder, line: seq<Byte>, rest: seq<Byte>)
    requires d.position <= |d.buffer|
    ensures DecodeStep(d) == (Decoder(0, rest), Some(line)) <==> CutsAt(d, line, rest)
    ensures DecodeStep(d) == (Decoder(|d.buffer|, d.buffer), None)
            <==> forall k | d.position <= k < |d.buffer| :: d.buffer[k] != 0x0A
  {
    var i := FirstNewline(d.buffer[d.position..]);
    FirstNewlineFrom(d);
    DecodeStepIs(d, i);
    if d.position + i < |d.buffer| {
      SomeCut(d, i);
    }
    if CutsAt(d, line, rest) {
      CutsAsSpecified(d, line, rest);
    }
  }

  lemma FirstNewlineFrom(d: Decoder)
    requires d.position <= |d.buffer|
    ensures var i := FirstNewline(d.buffer[d.position..]);
            NoNewlineFrom(d, i) && (d.position + i < |d.buffer| ==> d.buffer[d.position + i] == NEWLINE)
  {
    var part := d.buffer[d.position..];
    var i := FirstNewline(part);
    FirstNewlineIs(part);
    forall k | d.position <= k < d.position + i ensures d.buffer[k] != NEWLINE {
      assert d.buffer[k] == part[..i][k - d.position];
    }
  }

  datatype Action = Feed(chunk: seq<Byte>) | Decode

  /** A use of the codec: what arrived, what was decoded, what was looked at. */
  datatype Session = Session(decoder: Decoder, fed: seq<Byte>, lines: seq<seq<Byte>>, examined: nat)

  const START := Session(Decoder(0, []), [], [], 0)

  function Act(s: Session, a: Action): Session {
    match a
    case Feed(chunk) =>
      s.(decoder := s.decoder.(buffer := s.decoder.buffer + chunk), fed := s.fed + chunk)
    case Decode =>
      if s.decoder.position <= |s.decoder.buffer| then
        var (next, line) := DecodeStep(s.decoder);
        Session(next, s.fed,
                if line.Some? then s.lines + [line.value] else s.lines,
                s.examined + Examined(s.decoder))
      else s
  }

  function Use(s: Session, acts: seq<Action>): Session
    decreases acts
  {
    if acts == [] then s else Use(Act(s, acts[0]), acts[1..])
  }

  /** No newline lies before the cached position, nothing is lost or repeated, and
      every byte was looked at once: those consumed and those before the position. */
  predicate Inv(s: Session) {
    var d := s.decoder;
    && d.position <= |d.buffer| && NoNewline(d.buffer[..d.position])
    && Clean(s.lines) && JoinTo(s.lines, d.buffer) == s.fed
    && s.examined + |d.buffer| == |s.fed| + d.position
  }

  lemma {:induction false} MoveLine(lines: seq<seq<Byte>>, line: seq<Byte>, rest: seq<Byte>)
    ensures JoinTo(lines + [line], rest) == JoinTo(lines, EndLine(line, rest))
    ensures Clean(lines) && NoNewline(line) ==> Clean(lines + [line])
  {
    if lines == [] {
      assert (lines + [line])[1..] == [];
    } else {
      assert (lines + [line])[1..] == lines[1..] + [line];
      MoveLine(lines[1..], line, rest);
    }
  }

  lemma {:induction false} JoinMore(lines: seq<seq<Byte>>, rest: seq<Byte>, chunk: seq<Byte>)
    ensures JoinTo(lines, rest + chunk) == JoinTo(lines, rest) + chunk
  {
    if lines != [] {
      JoinMore(lines[1..], rest, chunk);
      var after := JoinTo(lines[1..], rest);
      assert lines[0] + ([NEWLINE] + (after + chunk)) == lines[0] + ([NEWLINE] + after) + chunk;
    }
  }

  lemma NoNewlineSoFar(buffer: seq<Byte>, position: nat, i: nat)
    requires position + i <= |buffer| && NoNewline(buffer[..position]) && NoNewline(buffer[position..][..i])
    ensures NoNewline(buffer[..position + i])
  {
    assert buffer[..position + i] == buffer[..position] + buffer[position..][..i];
  }

  /** A decode finds the first line of the whole buffer, if the part before the
      position has no newline. */
  lemma DecodeFinds(d: Decoder)
    requires d.position <= |d.buffer| && NoNewline(d.buffer[..d.position])
    ensures var (next, line) := DecodeStep(d);
            match line
            case Some(l) => NoNewline(l) && d.buffer == EndLine(l, next.buffer)
            case None => NoNewline(d.buffer)
  {
    var part := d.buffer[d.position..];
    var i := FirstNewline(part);
    FirstNewlineIs(part);
    NoNewlineSoFar(d.buffer, d.position, i);
    if d.position + i == |d.buffer| {
      assert d.buffer[..|d.buffer|] == d.buffer;
    }
  }

  lemma DecodeKeeps(s: Session)
    requires Inv(s)
    ensures Inv(Act(s, Decode))
  {
    var (next, line) := DecodeStep(s.decoder);
    DecodeFinds(s.decoder);
    if line.Some? {
      MoveLine(s.lines, line.value, next.buffer);
    } else {
      assert next.buffer[..next.position] == next.buffer;
    }
  }

  lemma ActKeeps(s: Session, a: Action)
    requires Inv(s)
    ensures Inv(Act(s, a))
  {
    match a
    case Decode => DecodeKeeps(s);
    case Feed(chunk) =>
      var d := s.decoder;
      assert (d.buffer + chunk)[..d.position] == d.buffer[..d.position];
      JoinMore(s.lines, d.buffer, chunk);
  }

  lemma {:induction false} UseKeeps(s: Session, acts: seq<Action>)
    requires Inv(s)
    ensures Inv(Use(s, acts))
    decreases acts
  {
    if acts != [] {
      ActKeeps(s, acts[0]);
      UseKeeps(Act(s, acts[0]), acts[1..]);
    }
  }

  /** The last call of decode found no complete line. */
  predicate Exhausted(s: Session) {
    s.decoder.position == |s.decoder.buffer|
  }

  /** Incremental decoding is plain splitting: however the bytes are cut into chunks
      and the calls are interleaved, the lines so far and the split of what is still
      in the buffer are the split of everything that arrived; once decode has
      nothing more to give, they are all its lines. */
  lemma {:induction false} IncrementalIsSplit(acts: seq<Action>)
    ensures var s := Use(START, acts);
            var left := SplitLines(s.decoder.buffer);
            && SplitLines(s.fed) == Split(s.lines + left.lines, left.rest)
            && (Exhausted(s) ==> SplitLines(s.fed) == Split(s.lines, s.decoder.buffer))
  {
    UseKeeps(START, acts);
    var s := Use(START, acts);
    var d := s.decoder;
    SplitAfterLines(s.lines, d.buffer);
    if Exhausted(s) {
      AllScanned(s);
      SplitNothing(d.buffer);
      assert s.lines + [] == s.lines;
    }
  }

  lemma AllScanned(s: Session)
    requires Inv(s) && Exhausted(s)
    ensures NoNewline(s.decoder.buffer)
  {
    assert s.decoder.buffer[..s.decoder.position] == s.decoder.buffer;
  }

  /** After a decode that found nothing the codec is exhausted, and only then. */
  lemma NothingFoundMeansExhausted(acts: seq<Action>)
    ensures var s := Use(START, acts);
            Exhausted(Act(s, Decode)) || |Act(s, Decode).lines| == |s.lines| + 1
    ensures var s := Use(START, acts);
            |Act(s, Decode).lines| == |s.lines| <==> NoNewline(s.decoder.buffer)
  {
    UseKeeps(START, acts);
    DecodeFinds(Use(START, acts).decoder);
  }

  /** Scanning is linear however the input is chunked: what was looked at is what
      was consumed plus what lies before the position. */
  lemma ScannedOnce(acts: seq<Action>)
    ensures var s := Use(START, acts);
            s.examined == |s.fed| - |s.decoder.buffer| + s.decoder.position && s.examined <= |s.fed|
  {
    UseKeeps(START, acts);
  }

  // ---- Encoding, specified -----------------------------------------------------------

  /** The buffer after encoding: appended to, or untouched by what cannot be
      serialized. */
  function Encoded(buffer: seq<Byte>, m: Message): seq<Byte> {
    match ToJson(m)
    case None => buffer
    case Some(j) => buffer + Print(j) + [NEWLINE]
  }

  function EncodedAll(buffer: seq<Byte>, ms: seq<Message>): seq<Byte>
    decreases ms
  {
    if ms == [] then buffer else EncodedAll(Encoded(buffer, ms[0]), ms[1..])
  }

  function Texts(ms: seq<Message>): seq<seq<Byte>> {
    if ms == [] then []
    else (if ToJson(ms[0]).Some? then [Print(ToJson(ms[0]).value)] else []) + Texts(ms[1..])
  }

  lemma {:induction false} EncodedIsJoined(buffer: seq<Byte>, ms: seq<Message>)
    ensures EncodedAll(buffer, ms) == buffer + JoinTo(Texts(ms), [])
    ensures Clean(Texts(ms))
    decreases ms
  {
    if ms == [] {
      assert buffer + [] == buffer;
    } else {
      EncodedIsJoined(Encoded(buffer, ms[0]), ms[1..]);
      if ToJson(ms[0]).Some? {
        var text := Print(ToJson(ms[0]).value);
        PrintHasNoNewline(ToJson(ms[0]).value);
        ConsLine(text, Texts(ms[1..]), []);
        Appended(buffer, text, JoinTo(Texts(ms[1..]), []));
      } else {
        assert Texts(ms) == Texts(ms[1..]);
      }
    }
  }

  lemma Appended(buffer: seq<Byte>, text: seq<Byte>, after: seq<Byte>)
    ensures buffer + text + [NEWLINE] + after == buffer + EndLine(text, after)
  {
  }

  // ---- The stream round trip -----------------------------------------------------------

  /** A JSON reader that reads back what the writer writes for these messages. */
  predicate ReadsBack(read: seq<Byte> -> Option<Json>, ms: seq<Message>) {
    forall i | 0 <= i < |ms| && ToJson(ms[i]).Some? :: read(Print(ToJson(ms[i]).value)) == ToJson(ms[i])
  }

  ghost predicate ReadsAllBack(read: seq<Byte> -> Option<Json>) {
    forall ms :: ReadsBack(read, ms)
  }

  /** There is one that does for all messages: compact text is uniquely readable. */
  lemma SomethingReadsBack()
    ensures exists read :: ReadsAllBack(read)
  {
    ghost var read: seq<Byte> -> Option<Json> := bytes => JsonUnique.Read(bytes);
    forall ms ensures ReadsBack(read, ms) {
      forall i | 0 <= i < |ms| && ToJson(ms[i]).Some?
        ensures read(Print(ToJson(ms[i]).value)) == ToJson(ms[i])
      {
        JsonUnique.ReadPrint(ToJson(ms[i]).value);
      }
    }
    assert ReadsAllBack(read);
  }

  /** from_slice: what a line is converted to. */
  function FromSlice(read: seq<Byte> -> Option<Json>, line: seq<Byte>): Parsed {
    match read(line)
    case Some(j) => Parse(j)
    case None => Err(SyntaxError("invalid JSON"))
  }

  /** What cannot be read as JSON is a syntax error; the rest is parsed. */
  lemma FromSliceIs(read: seq<Byte> -> Option<Json>, line: seq<Byte>)
    ensures read(line).None? ==> FromSlice(read, line).Err? && FromSlice(read, line).error.SyntaxError?
    ensures read(line).Some? ==> FromSlice(read, line) == Parse(read(line).value)
  {
  }

  function FromSlices(read: seq<Byte> -> Option<Json>, lines: seq<seq<Byte>>): seq<Parsed> {
    if lines == [] then [] else [FromSlice(read, lines[0])] + FromSlices(read, lines[1..])
  }

  /** What the other side should get: each serializable message, normalized. */
  function Received(ms: seq<Message>): seq<Parsed> {
    if ms == [] then []
    else (if Serializable(ms[0]) then [Ok(Normalize(ms[0]))] else []) + Received(ms[1..])
  }

  lemma {:induction false} TextsAreReceived(read: seq<Byte> -> Option<Json>, ms: seq<Message>)
    requires ReadsBack(read, ms)
    ensures FromSlices(read, Texts(ms)) == Received(ms)
  {
    if ms != [] {
      assert forall i | 0 <= i < |ms| - 1 :: ms[1..][i] == ms[i + 1];
      TextsAreReceived(read, ms[1..]);
      RoundTrip(ms[0]);
      if Serializable(ms[0]) {
        assert Texts(ms)[1..] == Texts(ms[1..]);
      } else {
        assert Texts(ms) == Texts(ms[1..]);
      }
    }
  }

  /** Encoding messages one after another and decoding the bytes in any chunks gives
      exactly the serializable ones back, normalized and in order, and leaves the
      buffer empty. */
  lemma StreamRoundTrip(read: seq<Byte> -> Option<Json>, ms: seq<Message>, acts: seq<Action>)
    requires ReadsBack(read, ms)
    requires Use(START, acts).fed == EncodedAll([], ms) && Exhausted(Use(START, acts))
    ensures FromSlices(read, Use(START, acts).lines) == Received(ms)
    ensures Use(START, acts).decoder.buffer == []
  {
    EncodedIsJoined([], ms);
    IncrementalIsSplit(acts);
    assert EncodedAll([], ms) == JoinTo(Texts(ms), []);
    SplitIsUnique(EncodedAll([], ms), Texts(ms), []);
    TextsAreReceived(read, ms);
  }

  // ---- The codec itself ------------------------------------------------------------------

  /** The part of BytesMut the codec uses. */
  class Buffer {
    var bytes: seq<Byte>

    constructor ()
      ensures bytes == []
    {
      bytes := [];
    }

    method Put(chunk: seq<Byte>)
      modifies this
      ensures bytes == old(bytes) + chunk
    {
      bytes := bytes + chunk;
    }

    /** Splits off and returns the first n bytes. */
    method SplitTo(n: nat) returns (head: seq<Byte>)
      requires n <= |bytes|
      modifies this
      ensures head == old(bytes)[..n] && bytes == old(bytes)[n..]
    {
      head := bytes[..n];
      bytes := bytes[n..];
    }
  }

  /** Line and DirtyLine: they differ in the conversion only. */
  class Line {
    var position: nat
    ghost var examined: nat

    constructor ()
      ensures position == 0 && examined == 0
    {
      position, examined := 0, 0;
    }

    ghost function State(buf: Buffer): Decoder
      reads this, buf
    {
      Decoder(position, buf.bytes)
    }

    /** decode_codec.  Slicing at the position needs it to be inside the buffer, which
        holds as long as the buffer is only appended to between calls. */
    method Decode(buf: Buffer, convert: seq<Byte> -> Parsed) returns (parsed: Option<Parsed>)
      requires position <= |buf.bytes|
      modifies this, buf
      ensures State(buf) == DecodeStep(old(State(buf))).0
      ensures parsed == match DecodeStep(old(State(buf))).1
                        case Some(line) => Some(convert(line))
                        case None => None
      ensures examined == old(examined) + Examined(old(State(buf)))
      ensures position <= |buf.bytes|
    {
      var i := 0;
      ghost var before := State(buf);
      while position + i < |buf.bytes| && buf.bytes[position + i] != NEWLINE
        invariant position + i <= |buf.bytes| && position == old(position) && buf.bytes == old(buf.bytes)
        invariant NoNewlineFrom(before, i)
        invariant examined == old(examined) + i
      {
        i := i + 1;
        examined := examined + 1;
      }
      DecodeStepIs(before, i);
      if position + i < |buf.bytes| {
        examined := examined + 1;
        var line := buf.SplitTo(position + i);
        var _ := buf.SplitTo(1);
        position := 0;
        parsed := Some(convert(line));
      } else {
        position := |buf.bytes|;
        parsed := None;
      }
    }

    /** encode_codec: an error leaves the buffer alone. */
    method Encode(m: Message, buf: Buffer) returns (ok: bool)
      modifies buf
      ensures ok <==> Serializable(m)
      ensures buf.bytes == Encoded(old(buf.bytes), m)
      ensures if ok then ToJson(m).Some? && buf.bytes == old(buf.bytes) + Print(ToJson(m).value) + [0x0A]
              else buf.bytes == old(buf.bytes)
    {
      RoundTrip(m);
      match ToJson(m)
      case None => ok := false;
      case Some(j) =>
        buf.Put(Print(j));
        buf.Put([NEWLINE]);
        ok := true;
    }
  }
}

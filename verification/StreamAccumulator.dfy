/** The stdout accumulator of the Claude CLI transport (claude-agent-sdk/src/transport.rs).

    Standard output is one JSON document per line; the accumulator is a net for a document
    split across lines. The JSON parser is a parameter. Where a result needs more of it than
    being a function, it needs that an accepted text that starts with a brace closes that brace
    at its end and not before (sections 4 and 7 of RFC 8259). */
module StreamAccumulator {
  import opened Common
  import opened Text

  datatype Outcome<V> =
    | Message(value: V)
    | Pending
    | SkippedNoise
    | DroppedCorruptPrefix(dropped: string, value: V)
    | BufferOverflow(len: nat)

  predicate StartsObject(s: string) {
    s != [] && s[0] == '{'
  }

  function Finish<V>(parse: string -> Option<V>, buffer: string, max: nat): (Outcome<V>, string) {
    if Utf8Len(buffer) > max then (BufferOverflow(Utf8Len(buffer)), [])
    else
      match parse(buffer)
      case Some(value) => (Message(value), [])
      case None => (Pending, buffer)
  }

  /** One trimmed line, from an empty buffer or on top of an open accumulation. */
  function AcceptTrimmed<V>(parse: string -> Option<V>, buffer: string, t: string, max: nat): (Outcome<V>, string) {
    if t == [] then (Pending, buffer)
    else if buffer == [] then
      if parse(t).Some? then (Message(parse(t).value), [])
      else if !StartsObject(t) then (SkippedNoise, [])
      else Finish(parse, t, max)
    else
      var (outcome, after) := Finish(parse, buffer + t, max);
      if outcome.Pending? && StartsObject(t) && parse(t).Some? then (DroppedCorruptPrefix(buffer, parse(t).value), [])
      else (outcome, after)
  }

  function Accept<V>(parse: string -> Option<V>, buffer: string, line: string, max: nat): (Outcome<V>, string) {
    AcceptTrimmed(parse, buffer, Trim(line), max)
  }

  /** What one read of the reader yields. */
  datatype Read<V> = Got(value: V) | EndOfStream | TooLong(len: nat)

  /** The next message of a stream, the buffer it leaves and the lines not read yet. */
  function NextMessage<V>(parse: string -> Option<V>, buffer: string, lines: seq<string>, max: nat)
    : (r: (Read<V>, string, seq<string>))
    ensures if lines == [] then r.0.EndOfStream? else |r.2| < |lines|
    decreases lines
  {
    if lines == [] then (EndOfStream, [], [])
    else
      var (outcome, after) := Accept(parse, buffer, lines[0], max);
      match outcome
      case Message(value) => (Got(value), after, lines[1..])
      case DroppedCorruptPrefix(_, value) => (Got(value), after, lines[1..])
      case BufferOverflow(len) => (TooLong(len), after, lines[1..])
      case _ => NextMessage(parse, after, lines[1..], max)
  }

  /** Empty, or an opened object that fits the limit and does not parse. */
  predicate Sound<V>(parse: string -> Option<V>, buffer: string, max: nat) {
    buffer == [] || (StartsObject(buffer) && !IsSpace(buffer[|buffer| - 1]) && Utf8Len(buffer) <= max && parse(buffer).None?)
  }

  lemma AcceptKeepsSound<V>(parse: string -> Option<V>, buffer: string, line: string, max: nat)
    requires Sound(parse, buffer, max)
    ensures Sound(parse, Accept(parse, buffer, line, max).1, max)
  {
  }

  /** What the end of the stream makes of a buffer that is not empty. */
  function Leftover<V>(parse: string -> Option<V>, buffer: string): Read<V> {
    match parse(buffer)
    case Some(value) => Got(value)
    case None => EndOfStream
  }

  class TransportReader<V> {
    const parse: string -> Option<V>
    const maxBufferSize: nat
    var jsonBuffer: string
    var lines: seq<string>      // what the child process has still to print

    ghost predicate Valid()
      reads this
    {
      Sound(parse, jsonBuffer, maxBufferSize)
    }

    constructor (parse: string -> Option<V>, maxBufferSize: nat, lines: seq<string>)
      ensures Valid() && this.parse == parse && this.maxBufferSize == maxBufferSize
      ensures jsonBuffer == [] && this.lines == lines
    {
      this.parse, this.maxBufferSize := parse, maxBufferSize;
      jsonBuffer, this.lines := [], lines;
    }

    method FinishAccumulated() returns (outcome: Outcome<V>)
      modifies this`jsonBuffer
      ensures (outcome, jsonBuffer) == Finish(parse, old(jsonBuffer), maxBufferSize)
    {
      if Utf8Len(jsonBuffer) > maxBufferSize {
        outcome := BufferOverflow(Utf8Len(jsonBuffer));
        jsonBuffer := [];
        return;
      }
      var value := parse(jsonBuffer);
      if value.Some? {
        jsonBuffer := [];
        return Message(value.value);
      }
      outcome := Pending;
    }

    method AcceptStreamLine(line: string) returns (outcome: Outcome<V>)
      requires Valid()
      modifies this`jsonBuffer
      ensures Valid()
      ensures (outcome, jsonBuffer) == Accept(parse, old(jsonBuffer), line, maxBufferSize)
    {
      AcceptKeepsSound(parse, jsonBuffer, line, maxBufferSize);
      var trimmed := Trim(line);
      if trimmed == [] {
        return Pending;
      }
      var alone := parse(trimmed);
      if jsonBuffer == [] {
        if alone.Some? {
          return Message(alone.value);
        }
        if !StartsObject(trimmed) {
          return SkippedNoise;
        }
        jsonBuffer := jsonBuffer + trimmed;
        assert jsonBuffer == trimmed;
        outcome := FinishAccumulated();
        return;
      }
      var prefix := jsonBuffer;
      jsonBuffer := jsonBuffer + trimmed;
      outcome := FinishAccumulated();
      if outcome.Pending? && StartsObject(trimmed) && alone.Some? {
        jsonBuffer := [];
        return DroppedCorruptPrefix(prefix, alone.value);
      }
    }

    /** Read lines up to the next message. What is left in the buffer at the end of the stream
        is taken out and never yields a message. */
    method ReadMessage() returns (read: Read<V>)
      requires Valid()
      modifies this
      ensures Valid()
      ensures (read, jsonBuffer, lines) == NextMessage(parse, old(jsonBuffer), old(lines), maxBufferSize)
    {
      while true
        invariant Valid()
        invariant NextMessage(parse, jsonBuffer, lines, maxBufferSize) == NextMessage(parse, old(jsonBuffer), old(lines), maxBufferSize)
        decreases lines
      {
        if lines == [] {
          if jsonBuffer != [] {
            read := Leftover(parse, jsonBuffer);
            jsonBuffer := [];
            return;
          }
          return EndOfStream;
        }
        var line := lines[0];
        lines := lines[1..];
        var outcome := AcceptStreamLine(line);
        match outcome
        case Message(value) => return Got(value);
        case DroppedCorruptPrefix(_, value) => return Got(value);
        case BufferOverflow(len) => return TooLong(len);
        case _ =>
      }
    }
  }

  // ---- Self-healing ----

  /** A line that is a complete object empties the buffer, whatever the buffer holds. The
      object is the message delivered, unless it belongs to an accumulated document that is
      complete with it, or the limit is exceeded. */
  lemma ObjectLineHeals<V>(parse: string -> Option<V>, buffer: string, line: string, max: nat)
    requires Trim(line) != [] && Trim(line)[0] == '{' && parse(Trim(line)).Some?
    ensures var (outcome, after) := Accept(parse, buffer, line, max);
            && after == []
            && (outcome == Message(parse(Trim(line)).value)
                || outcome == DroppedCorruptPrefix(buffer, parse(Trim(line)).value)
                || (buffer != [] && parse(buffer + Trim(line)).Some? && outcome == Message(parse(buffer + Trim(line)).value))
                || (buffer != [] && outcome == BufferOverflow(Utf8Len(buffer + Trim(line))) && Utf8Len(buffer + Trim(line)) > max))
            && (buffer == [] ==> outcome == Message(parse(Trim(line)).value))
  {
  }

  /** A line that can not start an object never opens an accumulation. */
  lemma NoiseNeverEnters<V>(parse: string -> Option<V>, line: string, max: nat)
    requires Trim(line) == [] || Trim(line)[0] != '{'
    ensures Accept(parse, [], line, max).1 == []
  {
  }

  // ---- Prefix-freeness of objects ----

  /** Where a scan of a JSON text stands: nesting depth, and whether inside a string. */
  datatype Lex = Lex(depth: int, inString: bool, escaped: bool)

  function LexStep(l: Lex, c: char): Lex {
    if l.inString then
      if l.escaped then l.(escaped := false)
      else if c == '\\' then l.(escaped := true)
      else if c == '"' then l.(inString := false)
      else l
    else if c == '"' then l.(inString := true)
    else if c == '{' || c == '[' then l.(depth := l.depth + 1)
    else if c == '}' || c == ']' then l.(depth := l.depth - 1)
    else l
  }

  function Scan(s: string): Lex {
    if s == [] then Lex(0, false, false) else LexStep(Scan(s[..|s| - 1]), s[|s| - 1])
  }

  /** The text opens a brace and closes it with its last character, not before. */
  ghost predicate ClosesAtEnd(s: string) {
    && s != [] && s[0] == '{'
    && Scan(s) == Lex(0, false, false)
    && forall i :: 0 < i < |s| ==> Scan(s[..i]).depth > 0
  }

  lemma ObjectsArePrefixFree(s: string, more: string)
    requires ClosesAtEnd(s) && more != []
    ensures !ClosesAtEnd(s + more)
  {
    assert (s + more)[..|s|] == s;
  }

  lemma ScanOneMore(s: string, c: char)
    ensures Scan(s + [c]) == LexStep(Scan(s), c)
  {
    assert (s + [c])[..|s|] == s;
  }

  /** Braces and brackets count one level each. */
  lemma SmallestObject()
    ensures Scan("{") == Lex(1, false, false) == Scan("[")
    ensures ClosesAtEnd("{}") && Scan("[]") == Lex(0, false, false)
  {
    assert "{" == "" + ['{'] && "[" == "" + ['['] && "{}" == "{" + ['}'] && "[]" == "[" + [']'];
    ScanOneMore("", '{');
    ScanOneMore("", '[');
    ScanOneMore("{", '}');
    ScanOneMore("[", ']');
    assert "{}"[..1] == "{";
  }

  /** Whatever stands in a string, braces or not, leaves the depth as it is: plain characters, and
      any character after a backslash, do not end it. */
  lemma {:induction false} StringsHideBraces(before: string, text: string, escaped: char)
    requires Scan(before) == Lex(1, false, false) && '"' !in text && '\\' !in text
    ensures Scan(before + "\"" + text) == Lex(1, true, false)
    ensures Scan(before + "\"" + text + ['\\', escaped] + "\"") == Lex(1, false, false)
  {
    var quoted := before + "\"";
    ScanOneMore(before, '"');
    if text == [] {
      assert quoted + text == quoted;
    } else {
      var n := |text| - 1;
      StringsHideBraces(before, text[..n], escaped);
      assert quoted + text == quoted + text[..n] + [text[n]];
      ScanOneMore(quoted + text[..n], text[n]);
      assert text[n] in text;
    }
    var whole := quoted + text;
    ScanOneMore(whole, '\\');
    ScanOneMore(whole + ['\\'], escaped);
    assert whole + ['\\', escaped] == whole + ['\\'] + [escaped];
    ScanOneMore(whole + ['\\', escaped], '"');
  }

  /** An object in an object: the scan is back at the outer depth where the inner one ends. */
  lemma {:induction false} ObjectsNest(before: string, s: string, inner: Lex)
    requires !Scan(before).inString && !Scan(before).escaped && Scan(s) == inner
    ensures Scan(before + s) == inner.(depth := Scan(before).depth + inner.depth)
  {
    if s == [] {
      assert before + s == before;
    } else {
      var n := |s| - 1;
      ObjectsNest(before, s[..n], Scan(s[..n]));
      assert (before + s)[..|before| + n] == before + s[..n];
    }
  }

  /** Every accepted text that starts with a brace and does not end in white space is an object
      text: it closes at its end. */
  ghost predicate ParsesObjects<V>(parse: string -> Option<V>) {
    forall s :: s != [] && s[0] == '{' && !IsSpace(s[|s| - 1]) && parse(s).Some? ==> ClosesAtEnd(s)
  }

  // ---- Rebuilding a split document ----

  function Stepper<V>(parse: string -> Option<V>, max: nat): (string, string) -> (string, seq<Outcome<V>>) {
    (buffer: string, piece: string) =>
      var (outcome, after) := AcceptTrimmed(parse, buffer, piece, max);
      (after, [outcome])
  }

  /** Feed trimmed lines from an empty buffer. */
  function Feed<V>(parse: string -> Option<V>, max: nat, pieces: seq<string>): (string, seq<Outcome<V>>) {
    Run(Stepper(parse, max), [], pieces)
  }

  function Trimmed(lines: seq<string>): (pieces: seq<string>)
    ensures |pieces| == |lines| && forall i :: 0 <= i < |pieces| ==> pieces[i] == Trim(lines[i]) && Tidy(pieces[i])
  {
    seq(|lines|, i requires 0 <= i < |lines| => Trim(lines[i]))
  }

  /** The pieces put together. */
  function Document(pieces: seq<string>): string {
    if pieces == [] then [] else Document(pieces[..|pieces| - 1]) + pieces[|pieces| - 1]
  }

  predicate AllPending<V>(outcomes: seq<Outcome<V>>) {
    forall i :: 0 <= i < |outcomes| ==> outcomes[i].Pending?
  }

  predicate CompleteObject<V>(parse: string -> Option<V>, piece: string) {
    StartsObject(piece) && parse(piece).Some?
  }

  lemma {:induction false} FeedLast<V>(parse: string -> Option<V>, max: nat, pieces: seq<string>)
    requires pieces != []
    ensures var n := |pieces| - 1;
            var (b, outcomes) := Feed(parse, max, pieces[..n]);
            var (outcome, after) := AcceptTrimmed(parse, b, pieces[n], max);
            Feed(parse, max, pieces) == (after, outcomes + [outcome]) && |outcomes| == n
  {
    var n := |pieces| - 1;
    RunLast(Stepper(parse, max), [], pieces);
    if n > 0 {
      FeedLast(parse, max, pieces[..n]);
    }
  }

  lemma PendingBefore<V>(parse: string -> Option<V>, max: nat, pieces: seq<string>)
    requires pieces != [] && AllPending(Feed(parse, max, pieces).1)
    ensures var n := |pieces| - 1;
            var (b, outcomes) := Feed(parse, max, pieces[..n]);
            AllPending(outcomes) && AcceptTrimmed(parse, b, pieces[n], max).0.Pending?
  {
    FeedLast(parse, max, pieces);
    var n := |pieces| - 1;
    var before, whole := Feed(parse, max, pieces[..n]).1, Feed(parse, max, pieces).1;
    assert whole[n].Pending? && forall i :: 0 <= i < n ==> before[i] == whole[i];
  }

  lemma PendingAppends<V>(parse: string -> Option<V>, buffer: string, piece: string, max: nat)
    requires AcceptTrimmed(parse, buffer, piece, max).0.Pending?
    ensures AcceptTrimmed(parse, buffer, piece, max).1 == buffer + piece
    ensures buffer != [] ==> !CompleteObject(parse, piece)
  {
    assert buffer == [] ==> buffer + piece == piece;
    assert piece == [] ==> buffer + piece == buffer;
  }

  /** As long as every line is pending, the buffer holds exactly the lines read. */
  lemma {:induction false} PendingKeepsLines<V>(parse: string -> Option<V>, max: nat, pieces: seq<string>)
    requires AllPending(Feed(parse, max, pieces).1)
    ensures Feed(parse, max, pieces).0 == Document(pieces)
  {
    if pieces != [] {
      var n := |pieces| - 1;
      FeedLast(parse, max, pieces);
      PendingBefore(parse, max, pieces);
      PendingKeepsLines(parse, max, pieces[..n]);
      PendingAppends(parse, Document(pieces[..n]), pieces[n], max);
    }
  }

  /** What trimming leaves: no white space at either end. */
  predicate Tidy(piece: string) {
    piece == [] || (!IsSpace(piece[0]) && !IsSpace(piece[|piece| - 1]))
  }

  /** The trimmed lines hold the document `doc`, split anywhere, between a first and a last line
      that are not blank. */
  ghost predicate SplitOf(pieces: seq<string>, doc: string) {
    && |pieces| >= 1 && Document(pieces) == doc
    && pieces[0] != [] && pieces[|pieces| - 1] != []
    && forall i :: 0 <= i < |pieces| ==> Tidy(pieces[i])
  }

  /** Every line but the last is pending, and the last one completes the document. */
  ghost predicate Rebuilt<V>(outcomes: seq<Outcome<V>>, value: V, after: string) {
    |outcomes| >= 1 && AllPending(outcomes[..|outcomes| - 1]) && outcomes[|outcomes| - 1] == Message(value) && after == []
  }

  lemma {:induction false} DocumentAppend(a: seq<string>, b: seq<string>)
    ensures Document(a + b) == Document(a) + Document(b)
  {
    if b == [] {
      assert a + b == a;
    } else {
      var n := |b| - 1;
      assert (a + b)[..|a| + n] == a + b[..n] && (a + b)[|a| + n] == b[n];
      DocumentAppend(a, b[..n]);
      assert Document(a) + (Document(b[..n]) + b[n]) == (Document(a) + Document(b[..n])) + b[n];
    }
  }

  /** A document of trimmed pieces does not end in white space. */
  lemma {:induction false} DocumentEnds(pieces: seq<string>)
    requires forall i :: 0 <= i < |pieces| ==> Tidy(pieces[i])
    ensures Document(pieces) != [] ==> !IsSpace(Document(pieces)[|Document(pieces)| - 1])
  {
    if pieces != [] {
      var n := |pieces| - 1;
      DocumentEnds(pieces[..n]);
      assert Tidy(pieces[n]);
    }
  }

  /** Some but not all lines of a split document: its proper, non-empty front part. */
  lemma PartOfSplit(pieces: seq<string>, doc: string, k: nat)
    requires SplitOf(pieces, doc) && 1 <= k < |pieces|
    ensures var part, rest := Document(pieces[..k]), Document(pieces[k..]);
            && doc == part + rest && part != [] && rest != []
            && !IsSpace(part[|part| - 1]) && !IsSpace(rest[|rest| - 1])
  {
    var front, back := pieces[..k], pieces[k..];
    assert pieces == front + back;
    DocumentAppend(front, back);
    assert front == [pieces[0]] + pieces[1..k];
    DocumentAppend([pieces[0]], pieces[1..k]);
    assert [pieces[0]][..0] == [] && Document([pieces[0]]) == [] + pieces[0];
    assert back[|back| - 1] == pieces[|pieces| - 1];
    DocumentEnds(front);
    DocumentEnds(back);
  }

  /** Such a part is an opened object that does not parse yet. */
  lemma PartIsOpen<V>(parse: string -> Option<V>, part: string, rest: string)
    requires ParsesObjects(parse) && StartsObject(part + rest) && parse(part + rest).Some?
    requires part != [] && rest != [] && !IsSpace(part[|part| - 1]) && !IsSpace(rest[|rest| - 1])
    ensures StartsObject(part) && parse(part).None? && Utf8Len(part) <= Utf8Len(part + rest)
  {
    assert part[0] == (part + rest)[0];
    Utf8LenAppend(part, rest);
    if parse(part).Some? {
      ObjectsArePrefixFree(part, rest);
    }
  }

  lemma FrontIsOpen<V>(parse: string -> Option<V>, pieces: seq<string>, doc: string, k: nat)
    requires ParsesObjects(parse) && SplitOf(pieces, doc) && StartsObject(doc) && parse(doc).Some? && 1 <= k < |pieces|
    ensures OpenAt(parse, Utf8Len(doc), pieces, k)
  {
    PartOfSplit(pieces, doc, k);
    PartIsOpen(parse, Document(pieces[..k]), Document(pieces[k..]));
  }

  lemma OpenLineIsPending<V>(parse: string -> Option<V>, buffer: string, piece: string, max: nat)
    requires StartsObject(buffer + piece) && parse(buffer + piece).None? && Utf8Len(buffer + piece) <= max
    requires buffer == [] || !CompleteObject(parse, piece)
    ensures AcceptTrimmed(parse, buffer, piece, max).0.Pending?
  {
    assert buffer == [] ==> buffer + piece == piece;
  }

  lemma OneMorePending<V>(parse: string -> Option<V>, max: nat, pieces: seq<string>)
    requires pieces != []
    requires var before := pieces[..|pieces| - 1];
             && AllPending(Feed(parse, max, before).1)
             && AcceptTrimmed(parse, Document(before), pieces[|pieces| - 1], max).0.Pending?
    ensures AllPending(Feed(parse, max, pieces).1)
  {
    FeedLast(parse, max, pieces);
    PendingKeepsLines(parse, max, pieces[..|pieces| - 1]);
  }

  /** The first `k` pieces put together are an opened object that fits and does not parse. */
  ghost predicate OpenAt<V>(parse: string -> Option<V>, max: nat, pieces: seq<string>, k: nat)
    requires k <= |pieces|
  {
    var part := Document(pieces[..k]);
    StartsObject(part) && parse(part).None? && Utf8Len(part) <= max
  }

  /** Pieces stay pending as long as what they add up to is open and none after the first is a
      complete object. */
  lemma {:induction false} StaysPending<V>(parse: string -> Option<V>, max: nat, pieces: seq<string>, k: nat)
    requires k <= |pieces| && forall j :: 0 < j <= k ==> OpenAt(parse, max, pieces, j)
    requires forall i :: 0 < i < k ==> !CompleteObject(parse, pieces[i])
    ensures AllPending(Feed(parse, max, pieces[..k]).1)
  {
    if k > 0 {
      var before, now := pieces[..k - 1], pieces[..k];
      StaysPending(parse, max, pieces, k - 1);
      assert now[..k - 1] == before && now[k - 1] == pieces[k - 1];
      assert OpenAt(parse, max, pieces, k);
      assert k == 1 ==> before == [];
      OpenLineIsPending(parse, Document(before), pieces[k - 1], max);
      OneMorePending(parse, max, now);
    }
  }

  /** A document split into lines is rebuilt exactly, and only then: every line but the last is
      held back and the last one delivers the document, if and only if it is one line, or it
      fits the limit and no line strictly between the first and the last is a complete object
      on its own. */
  lemma SplitDocumentIsRebuilt<V>(parse: string -> Option<V>, max: nat, pieces: seq<string>, doc: string, value: V)
    requires ParsesObjects(parse) && SplitOf(pieces, doc) && StartsObject(doc) && parse(doc) == Some(value)
    ensures var (after, outcomes) := Feed(parse, max, pieces);
            Rebuilt(outcomes, value, after) <==>
            |pieces| == 1
            || (Utf8Len(doc) <= max && forall i :: 0 < i < |pieces| - 1 ==> !CompleteObject(parse, pieces[i]))
  {
    var n := |pieces| - 1;
    var (after, outcomes) := Feed(parse, max, pieces);
    var before := Feed(parse, max, pieces[..n]).1;
    FeedLast(parse, max, pieces);
    assert outcomes[..n] == before;
    assert doc == Document(pieces[..n]) + pieces[n];
    if n == 0 {
      assert pieces[..0] == [] && doc == pieces[0];
    } else {
      FrontIsOpen(parse, pieces, doc, n);
      if Utf8Len(doc) <= max && forall i :: 0 < i < n ==> !CompleteObject(parse, pieces[i]) {
        forall j | 0 < j <= n
          ensures OpenAt(parse, max, pieces, j)
        {
          FrontIsOpen(parse, pieces, doc, j);
        }
        StaysPending(parse, max, pieces, n);
        PendingKeepsLines(parse, max, pieces[..n]);
      }
      if Rebuilt(outcomes, value, after) {
        PendingKeepsLines(parse, max, pieces[..n]);
        forall i | 0 < i < n
          ensures !CompleteObject(parse, pieces[i])
        {
          assert pieces[..n][i] == pieces[i];
          NoObjectAmongPending(parse, max, pieces[..n], i);
        }
      }
    }
  }

  /** A complete object line on an open accumulation is never pending. */
  lemma {:induction false} NoObjectAmongPending<V>(parse: string -> Option<V>, max: nat, pieces: seq<string>, i: nat)
    requires 0 < i < |pieces| && pieces[0] != [] && AllPending(Feed(parse, max, pieces).1)
    ensures !CompleteObject(parse, pieces[i])
  {
    var n := |pieces| - 1;
    var front := pieces[..n];
    PendingBefore(parse, max, pieces);
    if i < n {
      NoObjectAmongPending(parse, max, front, i);
    } else {
      PendingKeepsLines(parse, max, front);
      assert front == [pieces[0]] + front[1..];
      DocumentAppend([pieces[0]], front[1..]);
      assert [pieces[0]][..0] == [] && Document([pieces[0]]) == [] + pieces[0];
      PendingAppends(parse, Document(front), pieces[n], max);
    }
  }

  // ---- The same on raw lines ----

  function LineStepper<V>(parse: string -> Option<V>, max: nat): (string, string) -> (string, seq<Outcome<V>>) {
    (buffer: string, line: string) =>
      var (outcome, after) := Accept(parse, buffer, line, max);
      (after, [outcome])
  }

  lemma {:induction false} FeedTrims<V>(parse: string -> Option<V>, max: nat, buffer: string, lines: seq<string>)
    ensures Run(LineStepper(parse, max), buffer, lines) == Run(Stepper(parse, max), buffer, Trimmed(lines))
    decreases lines
  {
    if lines != [] {
      assert Trimmed(lines)[1..] == Trimmed(lines[1..]);
      FeedTrims(parse, max, AcceptTrimmed(parse, buffer, Trim(lines[0]), max).1, lines[1..]);
    }
  }

  /** A document printed over several lines, each with any white space around it, between a
      first and a last line that are not blank. */
  lemma PrintedDocumentIsRebuilt<V>(parse: string -> Option<V>, max: nat, lines: seq<string>, doc: string, value: V)
    requires ParsesObjects(parse) && StartsObject(doc) && parse(doc) == Some(value)
    requires SplitOf(Trimmed(lines), doc)
    ensures var (after, outcomes) := Run(LineStepper(parse, max), [], lines);
            Rebuilt(outcomes, value, after) <==>
            |lines| == 1
            || (Utf8Len(doc) <= max && forall i :: 0 < i < |lines| - 1 ==> !CompleteObject(parse, Trimmed(lines)[i]))
  {
    FeedTrims(parse, max, [], lines);
    SplitDocumentIsRebuilt(parse, max, Trimmed(lines), doc, value);
  }

  // ---- What a read returns ----

  /** An outcome that ends a read. */
  predicate EndsRead<V>(outcome: Outcome<V>) {
    !outcome.Pending? && !outcome.SkippedNoise?
  }

  /** The read carries what the outcome carries. */
  ghost predicate Carries<V>(read: Read<V>, outcome: Outcome<V>) {
    || (outcome.Message? && read == Got(outcome.value))
    || (outcome.DroppedCorruptPrefix? && read == Got(outcome.value))
    || (outcome.BufferOverflow? && read == TooLong(outcome.len))
  }

  /** Line `k` is the first whose outcome ends the read. */
  ghost predicate FirstEnd<V>(outcomes: seq<Outcome<V>>, k: nat) {
    k < |outcomes| && EndsRead(outcomes[k]) && forall j :: 0 <= j < k ==> !EndsRead(outcomes[j])
  }

  lemma {:induction false} OutcomePerLine<V>(parse: string -> Option<V>, buffer: string, lines: seq<string>, max: nat)
    ensures |Run(LineStepper(parse, max), buffer, lines).1| == |lines|
    decreases lines
  {
    if lines != [] {
      OutcomePerLine(parse, Accept(parse, buffer, lines[0], max).1, lines[1..], max);
    }
  }

  lemma ReadsFirstLine<V>(parse: string -> Option<V>, buffer: string, lines: seq<string>, max: nat)
    requires lines != []
    ensures var (outcome, after) := Accept(parse, buffer, lines[0], max);
            var (last, rest) := Run(LineStepper(parse, max), after, lines[1..]);
            && Run(LineStepper(parse, max), buffer, lines) == (last, [outcome] + rest)
            && Run(LineStepper(parse, max), buffer, lines[..1]).0 == after
            && forall k :: 0 < k < |lines| ==>
                 Run(LineStepper(parse, max), buffer, lines[..k + 1]).0 == Run(LineStepper(parse, max), after, lines[1..][..k]).0
  {
    var step := LineStepper(parse, max);
    var after := Accept(parse, buffer, lines[0], max).1;
    assert lines[..1] == [lines[0]];
    RunOne(step, buffer, lines[0]);
    forall k | 0 < k < |lines|
      ensures Run(step, buffer, lines[..k + 1]).0 == Run(step, after, lines[1..][..k]).0
    {
      assert lines[..k + 1][1..] == lines[1..][..k] && lines[..k + 1][0] == lines[0];
    }
  }

  /** What one read returns, in terms of the lines: the first outcome that is a message, a message
      after a dropped prefix or an overflow, with the buffer as that line leaves it and the lines
      after it still to read; and the end of the stream exactly when no line has such an outcome. */
  lemma {:induction false} NextMessageIsTheFirst<V>(parse: string -> Option<V>, buffer: string, lines: seq<string>, max: nat)
    ensures var outcomes := Run(LineStepper(parse, max), buffer, lines).1;
            var (read, after, left) := NextMessage(parse, buffer, lines, max);
            && |outcomes| == |lines|
            && (forall k: nat | FirstEnd(outcomes, k) ::
                  && Carries(read, outcomes[k]) && left == lines[k + 1..]
                  && after == Run(LineStepper(parse, max), buffer, lines[..k + 1]).0)
            && (read.EndOfStream? <==> forall k :: 0 <= k < |outcomes| ==> !EndsRead(outcomes[k]))
            && (read.EndOfStream? ==> after == [] && left == [])
    decreases lines
  {
    OutcomePerLine(parse, buffer, lines, max);
    if lines != [] {
      var (outcome, next) := Accept(parse, buffer, lines[0], max);
      var rest := Run(LineStepper(parse, max), next, lines[1..]).1;
      var outcomes := Run(LineStepper(parse, max), buffer, lines).1;
      ReadsFirstLine(parse, buffer, lines, max);
      assert outcomes == [outcome] + rest && outcomes[0] == outcome;
      if !EndsRead(outcome) {
        NextMessageIsTheFirst(parse, next, lines[1..], max);
        assert forall k :: 0 < k < |outcomes| ==> outcomes[k] == rest[k - 1];
        forall k: nat | FirstEnd(outcomes, k)
          ensures FirstEnd(rest, k - 1) && lines[k + 1..] == lines[1..][k..]
        {
          assert forall j :: 0 <= j < k - 1 ==> rest[j] == outcomes[j + 1];
        }
        assert forall k :: 0 <= k < |rest| ==> rest[k] == outcomes[k + 1];
      }
    }
  }

  /** The reads of a stream one after the other, until it ends. */
  function AllReads<V>(parse: string -> Option<V>, buffer: string, lines: seq<string>, max: nat): seq<Read<V>>
    decreases |lines|
  {
    var (read, after, left) := NextMessage(parse, buffer, lines, max);
    if read.EndOfStream? then [] else [read] + AllReads(parse, after, left, max)
  }

  /** The outcomes that end a read. */
  function Ending<V>(outcomes: seq<Outcome<V>>): seq<Outcome<V>> {
    if outcomes == [] then []
    else (if EndsRead(outcomes[0]) then [outcomes[0]] else []) + Ending(outcomes[1..])
  }

  /** One by one, the reads carry the outcomes. */
  ghost predicate Delivers<V>(got: seq<Read<V>>, ends: seq<Outcome<V>>) {
    |got| == |ends| && forall i :: 0 <= i < |got| ==> Carries(got[i], ends[i])
  }

  lemma DeliversOneMore<V>(got: seq<Read<V>>, ends: seq<Outcome<V>>, outcome: Outcome<V>)
    requires got != [] && Carries(got[0], outcome) && Delivers(got[1..], ends)
    ensures Delivers(got, [outcome] + ends)
  {
    assert forall i :: 0 < i < |got| ==> got[i] == got[1..][i - 1];
  }

  /** However a stream is split into reads, they deliver every message and every overflow of its
      lines, each once and in order. */
  lemma {:induction false} ReadsDeliverAll<V>(parse: string -> Option<V>, buffer: string, lines: seq<string>, max: nat)
    ensures var got := AllReads(parse, buffer, lines, max);
            var ends := Ending(Run(LineStepper(parse, max), buffer, lines).1);
            Delivers(got, ends)
    decreases lines
  {
    if lines != [] {
      var (outcome, after) := Accept(parse, buffer, lines[0], max);
      var rest := Run(LineStepper(parse, max), after, lines[1..]).1;
      ReadsFirstLine(parse, buffer, lines, max);
      ReadsDeliverAll(parse, after, lines[1..], max);
      assert ([outcome] + rest)[1..] == rest && ([outcome] + rest)[0] == outcome;
      OneLineFurther(parse, buffer, lines, max);
      if EndsRead(outcome) {
        DeliversOneMore(AllReads(parse, buffer, lines, max), Ending(rest), outcome);
      } else {
        assert [] + Ending(rest) == Ending(rest);
      }
    }
  }

  /** A line whose outcome ends a read gives the next read; any other makes no difference to the
      reads that follow. */
  lemma OneLineFurther<V>(parse: string -> Option<V>, buffer: string, lines: seq<string>, max: nat)
    requires lines != []
    ensures var (outcome, after) := Accept(parse, buffer, lines[0], max);
            var got, further := AllReads(parse, buffer, lines, max), AllReads(parse, after, lines[1..], max);
            if EndsRead(outcome) then got != [] && Carries(got[0], outcome) && got[1..] == further else got == further
  {
  }
}

/** The Antigravity transcript decoder (antigravity-sdk/src/transcript.rs). A growing log is read
    again on every poll; each step is emitted once. Results are paired with calls through two
    redundant indexes: `Decoder` has both, and every method of it behaves like `Apply`, the
    decoder over one list of unanswered calls. */
module TranscriptDecoder {
  import opened Common
  import opened Text

  // ---- Rows and events ----

  /** A non-null JSON field: its text is the string itself, or the serialised value. */
  datatype Json = Str(text: string) | Container(text: string) | Scalar(text: string)

  datatype ToolCall = ToolCall(name: string, input: string)

  datatype Row = Row(rowType: string, step: Option<int>,
                     content: Option<Json>, thinking: Option<Json>, toolCalls: Option<Json>, error: Option<Json>,
                     calls: seq<ToolCall>, isTruncated: bool, truncated: set<string>, raw: string)

  /** The text `antigravity-tool-{step}-{index}`. */
  datatype ToolId = ToolId(step: int, index: nat)

  datatype Event =
    | ToolUse(step: int, id: ToolId, name: string, input: string)
    | AssistantDelta(step: int, text: string, reasoning: Option<string>)
    | ToolResult(step: int, answers: Option<ToolId>, name: string, content: string, isError: bool)
    | ErrorReport(step: int, message: string)

  /** A field counts as text unless it is a blank string. */
  function RowText(field: Option<Json>): Option<string> {
    if field.None? then None
    else if field.value.Container? || Trim(field.value.text) != [] then Some(field.value.text)
    else None
  }

  function LowerAscii(c: char): char {
    if 'A' <= c <= 'Z' then 'a' + (c - 'A') else c
  }

  predicate IsAlnum(c: char) {
    'a' <= c <= 'z' || 'A' <= c <= 'Z' || '0' <= c <= '9'
  }

  /** Lower case, with every other character than a letter or digit as an underscore. */
  function Flat(s: string): (r: string)
    ensures |r| == |s|
    ensures forall i :: 0 <= i < |r| ==> LowerAscii(r[i]) == r[i] && (r[i] == '_' || IsAlnum(r[i]))
  {
    if s == [] then []
    else [if IsAlnum(LowerAscii(s[0])) then LowerAscii(s[0]) else '_'] + Flat(s[1..])
  }

  function NonEmpty(parts: seq<string>): (r: seq<string>)
    ensures forall p :: p in r <==> p in parts && p != []
  {
    if parts == [] then []
    else if parts[0] == [] then NonEmpty(parts[1..])
    else [parts[0]] + NonEmpty(parts[1..])
  }

  function Normalize(name: string): string {
    Join(NonEmpty(Split(Flat(Trim(name)), '_')), '_')
  }

  function Canonical(name: string): string {
    var n := Normalize(name);
    if n == "list_dir" || n == "list_directory" then "list_directory" else n
  }

  // ---- The decoder over one list ----

  /** A tool call still waiting for its result, under its canonical name. */
  datatype Call = Call(id: ToolId, name: string)

  datatype State = State(processed: set<int>, outstanding: seq<Call>, reasoning: string,
                         lastError: Option<string>, visible: bool)

  const START := State({}, [], "", None, false)

  function Ids(calls: seq<Call>): (r: seq<ToolId>)
    ensures |r| == |calls|
    ensures forall i :: 0 <= i < |r| ==> r[i] == calls[i].id
  {
    seq(|calls|, i requires 0 <= i < |calls| => calls[i].id)
  }

  /** The ids waiting under one canonical name, in order. */
  function IdsNamed(calls: seq<Call>, name: string): seq<ToolId> {
    if calls == [] then []
    else if calls[0].name == name then [calls[0].id] + IdsNamed(calls[1..], name)
    else IdsNamed(calls[1..], name)
  }

  function FirstNamed(calls: seq<Call>, name: string): (i: nat)
    ensures i <= |calls|
    ensures i < |calls| ==> calls[i].name == name
    ensures forall j :: 0 <= j < i ==> calls[j].name != name
  {
    if calls == [] || calls[0].name == name then 0 else 1 + FirstNamed(calls[1..], name)
  }

  const RESULT_SUFFIX := "_result"

  /** The names a result row is looked up under: its own, then without `_result`. */
  function Keys(rowType: string): seq<string> {
    var n := Canonical(rowType);
    if EndsWith(n, RESULT_SUFFIX) then [n, Canonical(StripSuffix(n, RESULT_SUFFIX))] else [n]
  }

  function FirstUnder(calls: seq<Call>, keys: seq<string>): (i: nat)
    ensures i <= |calls|
  {
    if keys == [] then 0
    else if FirstNamed(calls, keys[0]) < |calls| then FirstNamed(calls, keys[0])
    else FirstUnder(calls, keys[1..])
  }

  function IdAt(calls: seq<Call>, i: nat): Option<ToolId> {
    if i < |calls| then Some(calls[i].id) else None
  }

  /** The `index`-th call of a planner row. */
  function Use(s: State, step: int, index: nat, call: ToolCall): (State, seq<Event>) {
    var id := ToolId(step, index);
    (s.(outstanding := s.outstanding + [Call(id, Canonical(call.name))], visible := true),
     [ToolUse(step, id, call.name, call.input)])
  }

  /** The state inside the loop over a row's calls. */
  datatype Counted = Counted(s: State, next: nat)

  function UseNext(step: int): (Counted, ToolCall) -> (Counted, seq<Event>) {
    (c: Counted, call: ToolCall) =>
      var (t, events) := Use(c.s, step, c.next, call);
      (Counted(t, c.next + 1), events)
  }

  function AddReasoning(reasoning: string, thinking: Option<string>): string {
    if thinking.None? then reasoning
    else if reasoning == [] then thinking.value
    else reasoning + "\n\n" + thinking.value
  }

  /** A planner row's own text carries all reasoning gathered so far. */
  function Say(s: State, step: int, text: Option<string>): (State, seq<Event>) {
    if text.None? then (s, [])
    else
      (s.(reasoning := "", visible := true),
       [AssistantDelta(step, text.value, if s.reasoning == [] then None else Some(s.reasoning))])
  }

  function PlannerRow(s: State, step: int, row: Row): (State, seq<Event>) {
    var s0 := s.(reasoning := AddReasoning(s.reasoning, RowText(row.thinking)));
    var (c, uses) := Run(UseNext(step), Counted(s0, 0), row.calls);
    var (t, said) := Say(c.s, step, RowText(row.content));
    (t, uses + said)
  }

  function ErrorText(row: Row): string {
    match RowText(row.error)
    case Some(text) => text
    case None =>
      match RowText(row.content)
      case Some(text) => text
      case None => "antigravity CLI reported an error"
  }

  function ErrorRow(s: State, step: int, row: Row): (State, seq<Event>) {
    var message := ErrorText(row);
    var s1 := s.(lastError := Some(message));
    if s.outstanding == [] then (s1, [ErrorReport(step, message)])
    else (s1.(outstanding := s.outstanding[1..], visible := true),
          [ErrorReport(step, message),
           ToolResult(step, Some(s.outstanding[0].id), row.rowType, message, true)])
  }

  function ResultRow(s: State, step: int, row: Row): (State, seq<Event>) {
    var i := FirstUnder(s.outstanding, Keys(row.rowType));
    (s.(outstanding := RemoveAt(s.outstanding, i), visible := true),
     [ToolResult(step, IdAt(s.outstanding, i), row.rowType, row.raw, false)])
  }

  predicate SkipVisible(rowType: string) {
    rowType == "USER_INPUT" || rowType == "CONVERSATION_HISTORY" || rowType == "SYSTEM_MESSAGE"
    || rowType == "CHECKPOINT"
  }

  function RowEffect(s: State, step: int, row: Row): (State, seq<Event>) {
    if row.rowType == "PLANNER_RESPONSE" then PlannerRow(s, step, row)
    else if row.rowType == "ERROR_MESSAGE" then ErrorRow(s, step, row)
    else if SkipVisible(row.rowType) then (s, [])
    else if row.content.Some? then ResultRow(s, step, row)
    else (s, [])
  }

  predicate Skipped(s: State, row: Row, baseline: int) {
    row.step.None? || row.step.value <= baseline || row.step.value in s.processed
  }

  function Visit(s: State, row: Row, baseline: int): (State, seq<Event>) {
    if Skipped(s, row, baseline) then (s, [])
    else RowEffect(s.(processed := s.processed + {row.step.value}), row.step.value, row)
  }

  function Visitor(baseline: int): (State, Row) -> (State, seq<Event>) {
    (s: State, row: Row) => Visit(s, row, baseline)
  }

  /** Decode a whole read of the transcript. */
  function Apply(s: State, rows: seq<Row>, baseline: int): (State, seq<Event>) {
    Run(Visitor(baseline), s, rows)
  }

  // ---- Tailing equals one-shot decoding ----

  lemma UsesProcessed(s: State, step: int, calls: seq<ToolCall>)
    ensures Run(UseNext(step), Counted(s, 0), calls).0.s.processed == s.processed
  {
    var inv := (c: Counted, log: seq<Event>) => c.s.processed == s.processed;
    RunKeeps(UseNext(step), inv, Counted(s, 0), [], calls);
  }

  lemma VisitProcessed(s: State, row: Row, baseline: int)
    ensures var t := Visit(s, row, baseline).0;
            Skipped(t, row, baseline)
            && t.processed == s.processed + (if Skipped(s, row, baseline) then {} else {row.step.value})
  {
    if row.step.Some? {
      var s0 := s.(processed := s.processed + {row.step.value});
      UsesProcessed(s0.(reasoning := AddReasoning(s0.reasoning, RowText(row.thinking))), row.step.value, row.calls);
    }
  }

  lemma {:induction false} ApplyProcessed(s: State, rows: seq<Row>, baseline: int)
    ensures var t := Apply(s, rows, baseline).0;
            s.processed <= t.processed && forall row :: row in rows ==> Skipped(t, row, baseline)
    decreases rows
  {
    if rows != [] {
      var s1 := Visit(s, rows[0], baseline).0;
      VisitProcessed(s, rows[0], baseline);
      ApplyProcessed(s1, rows[1..], baseline);
      forall row | row in rows
        ensures Skipped(Apply(s, rows, baseline).0, row, baseline)
      {
        assert row == rows[0] || row in rows[1..];
      }
    }
  }

  /** Poll after poll, every read goes through the same decoder. */
  function Poll(s: State, polls: seq<seq<Row>>, baseline: int): (State, seq<Event>) {
    Run((t: State, rows: seq<Row>) => Apply(t, rows, baseline), s, polls)
  }

  ghost predicate Growing(polls: seq<seq<Row>>) {
    forall i :: 0 < i < |polls| ==> polls[i - 1] <= polls[i]
  }

  /** Reading an extension of what was read before only decodes the new rows. */
  lemma RereadDecodesTheNewRows(s: State, old_: seq<Row>, new_: seq<Row>, baseline: int)
    ensures var (s1, e1) := Apply(s, old_, baseline);
            var (s2, e2) := Apply(s1, old_ + new_, baseline);
            Apply(s, old_ + new_, baseline) == (s2, e1 + e2)
  {
    var s1 := Apply(s, old_, baseline).0;
    ApplyProcessed(s, old_, baseline);
    RunIdle(Visitor(baseline), s1, old_);
    RunAppend(Visitor(baseline), s1, old_, new_);
    RunAppend(Visitor(baseline), s, old_, new_);
    assert [] + Apply(s1, new_, baseline).1 == Apply(s1, new_, baseline).1;
  }

  /** However a growing log is cut into polls, and whatever the baseline, the events of all
      polls and the decoder they leave are those of decoding the last read alone. */
  lemma {:induction false} TailingEqualsOneShot(s: State, polls: seq<seq<Row>>, baseline: int)
    requires |polls| >= 1 && Growing(polls)
    ensures Poll(s, polls, baseline) == Apply(s, polls[|polls| - 1], baseline)
  {
    var n := |polls| - 1;
    var step := (t: State, rows: seq<Row>) => Apply(t, rows, baseline);
    RunLast(step, s, polls);
    if n == 0 {
      assert polls[..0] == [];
      assert [] + Apply(s, polls[0], baseline).1 == Apply(s, polls[0], baseline).1;
    } else {
      var before := polls[..n];
      TailingEqualsOneShot(s, before, baseline);
      var a, b := polls[n - 1], polls[n][|polls[n - 1]|..];
      assert polls[n] == a + b && before[n - 1] == a;
      RereadDecodesTheNewRows(s, a, b, baseline);
    }
  }

  // ---- Reading the two transcript files ----

  predicate FieldRicher(compact: Option<Json>, full: Option<Json>, truncated: bool) {
    full.Some? && (truncated || compact.None?
                   || (full != compact && Utf8Len(full.value.text) > Utf8Len(compact.value.text)))
  }

  predicate RowRicher(compact: Row, full: Row) {
    || compact.isTruncated
    || FieldRicher(compact.content, full.content, "content" in compact.truncated)
    || FieldRicher(compact.thinking, full.thinking, "thinking" in compact.truncated)
    || FieldRicher(compact.toolCalls, full.toolCalls, "tool_calls" in compact.truncated)
    || FieldRicher(compact.error, full.error, "error" in compact.truncated)
  }

  /** The full rows by step; a later row of the same step replaces an earlier one. */
  function ByStep(full: seq<Row>): (m: map<int, Row>)
    ensures forall k :: k in m ==> m[k].step == Some(k)
  {
    if full == [] then map[]
    else
      var rest, row := ByStep(full[..|full| - 1]), full[|full| - 1];
      if row.step.Some? then rest[row.step.value := row] else rest
  }

  /** A compact row gives way to the full row of its step when that one says more. Each full
      row is offered once, to the first compact row of its step. */
  function Overlay(compact: seq<Row>, full: map<int, Row>): seq<Row> {
    if compact == [] then []
    else
      var row := compact[0];
      if row.step.None? || row.step.value !in full then [row] + Overlay(compact[1..], full)
      else
        var better := full[row.step.value];
        [if RowRicher(row, better) then better else row] + Overlay(compact[1..], full - {row.step.value})
  }

  function ReadRows(compact: seq<Row>, full: seq<Row>): seq<Row> {
    Overlay(compact, ByStep(full))
  }

  /** The overlay never adds, drops, reorders or renumbers a step. */
  lemma {:induction false} OverlayKeepsSteps(compact: seq<Row>, full: map<int, Row>)
    requires forall k :: k in full ==> full[k].step == Some(k)
    ensures var rows := Overlay(compact, full);
            |rows| == |compact| && forall i :: 0 <= i < |rows| ==> rows[i].step == compact[i].step
  {
    if compact != [] {
      var row := compact[0];
      if row.step.None? || row.step.value !in full {
        OverlayKeepsSteps(compact[1..], full);
      } else {
        var k := row.step.value;
        var left := full - {k};
        assert forall j :: j in left ==> j in full && left[j] == full[j];
        OverlayKeepsSteps(compact[1..], left);
        assert k in full && full[k].step == Some(k);
      }
    }
  }

  /** Which row is shown at each place: the full row of the step when it says more and no
      earlier compact row has had that step, otherwise the compact one. */
  lemma {:induction false} OverlayPicks(compact: seq<Row>, full: map<int, Row>, i: nat)
    requires i < |compact| == |Overlay(compact, full)|
    ensures var row := compact[i];
            Overlay(compact, full)[i] ==
            if row.step.Some? && row.step.value in full && RowRicher(row, full[row.step.value])
               && (forall j :: 0 <= j < i ==> compact[j].step != row.step) then full[row.step.value]
            else row
  {
    if i > 0 {
      var row, rest := compact[0], compact[1..];
      assert forall j :: 0 <= j < i - 1 ==> rest[j] == compact[j + 1];
      OverlayPicks(rest, if row.step.None? || row.step.value !in full then full else full - {row.step.value}, i - 1);
      assert (forall j :: 0 <= j < i ==> compact[j].step != compact[i].step) <==>
             row.step != compact[i].step && forall j :: 0 <= j < i - 1 ==> rest[j].step != compact[i].step;
    }
  }

  /** The two files at one poll. */
  datatype Files = Files(compact: seq<Row>, full: seq<Row>)

  function ReadAll(files: seq<Files>): seq<seq<Row>> {
    seq(|files|, i requires 0 <= i < |files| => ReadRows(files[i].compact, files[i].full))
  }

  /** The compact file only grows; the full one may do as it likes. */
  ghost predicate CompactGrows(files: seq<Files>) {
    forall i :: 0 < i < |files| ==> files[i - 1].compact <= files[i].compact
  }

  lemma ReadKeepsSteps(f: Files)
    ensures var rows := ReadRows(f.compact, f.full);
            |rows| == |f.compact| && forall i :: 0 <= i < |rows| ==> rows[i].step == f.compact[i].step
  {
    OverlayKeepsSteps(f.compact, ByStep(f.full));
  }

  /** Every row of the compact file as the first poll that shows it picks it. */
  function FirstSight(files: seq<Files>): (rows: seq<Row>)
    requires files != [] && CompactGrows(files)
    ensures |rows| == |files[|files| - 1].compact|
    ensures forall i :: 0 <= i < |rows| ==> rows[i].step == files[|files| - 1].compact[i].step
  {
    var n := |files| - 1;
    var last := ReadRows(files[n].compact, files[n].full);
    ReadKeepsSteps(files[n]);
    if n == 0 then last
    else
      assert files[n - 1].compact <= files[n].compact && files[..n][n - 1] == files[n - 1];
      FirstSight(files[..n]) + last[|files[n - 1].compact|..]
  }

  lemma FirstSightGrows(files: seq<Files>)
    requires |files| >= 2 && CompactGrows(files)
    ensures var n := |files| - 1;
            var before, last := FirstSight(files[..n]), ReadRows(files[n].compact, files[n].full);
            && |before| == |files[n - 1].compact| <= |last|
            && (forall i :: 0 <= i < |before| ==> last[i].step == before[i].step)
            && FirstSight(files) == before + last[|before|..]
  {
    var n := |files| - 1;
    ReadKeepsSteps(files[n]);
    assert files[n - 1].compact <= files[n].compact && files[..n][n - 1] == files[n - 1];
    assert forall i :: 0 <= i < |files[n - 1].compact| ==> files[n].compact[i] == files[n - 1].compact[i];
  }

  /** Each row is as in the first poll whose compact file reaches it. */
  lemma {:induction false} FirstSightPicks(files: seq<Files>, t: nat, i: nat)
    requires CompactGrows(files) && t < |files| && i < |files[t].compact| && (t > 0 ==> |files[t - 1].compact| <= i)
    ensures i < |FirstSight(files)| && |ReadRows(files[t].compact, files[t].full)| == |files[t].compact|
    ensures FirstSight(files)[i] == ReadRows(files[t].compact, files[t].full)[i]
  {
    var n := |files| - 1;
    ReadKeepsSteps(files[t]);
    if n > 0 {
      FirstSightGrows(files);
      if t < n {
        FirstSightPicks(files[..n], t, i);
      }
    }
  }

  /** Rows of steps that have been decoded are skipped, whatever else is in them. */
  lemma SkippedByStep(s: State, seen: seq<Row>, rows: seq<Row>, baseline: int)
    requires |seen| <= |rows| && forall i :: 0 <= i < |seen| ==> rows[i].step == seen[i].step
    ensures var (s1, e1) := Apply(s, seen, baseline);
            var (s2, e2) := Apply(s1, rows, baseline);
            Apply(s, seen + rows[|seen|..], baseline) == (s2, e1 + e2)
  {
    var s1 := Apply(s, seen, baseline).0;
    var old_, new_ := rows[..|seen|], rows[|seen|..];
    ApplyProcessed(s, seen, baseline);
    forall i | 0 <= i < |old_|
      ensures Visitor(baseline)(s1, old_[i]) == (s1, [])
    {
      assert seen[i] in seen && Skipped(s1, seen[i], baseline);
    }
    RunIdle(Visitor(baseline), s1, old_);
    RunAppend(Visitor(baseline), s1, old_, new_);
    assert rows == old_ + new_;
    RunAppend(Visitor(baseline), s, seen, new_);
    assert [] + Apply(s1, new_, baseline).1 == Apply(s1, new_, baseline).1;
  }

  /** However the two files are cut into polls, and whatever becomes of the full one, all polls
      together emit the events, and leave the decoder, of decoding each row as it was first seen. */
  lemma {:induction false} TailingDecodesFirstSight(s: State, files: seq<Files>, baseline: int)
    requires files != [] && CompactGrows(files)
    ensures Poll(s, ReadAll(files), baseline) == Apply(s, FirstSight(files), baseline)
  {
    var n := |files| - 1;
    var polls := ReadAll(files);
    var step := (t: State, rows: seq<Row>) => Apply(t, rows, baseline);
    RunLast(step, s, polls);
    if n == 0 {
      assert polls[..0] == [];
      assert [] + Apply(s, polls[0], baseline).1 == Apply(s, polls[0], baseline).1;
    } else {
      assert polls[..n] == ReadAll(files[..n]);
      TailingDecodesFirstSight(s, files[..n], baseline);
      FirstSightGrows(files);
      SkippedByStep(s, FirstSight(files[..n]), polls[n], baseline);
    }
  }

  /** A cut-off planner row of step 1 with only a text. */
  function TextRow(text: string): Row {
    Row("PLANNER_RESPONSE", Some(1), Some(Str(text)), None, None, None, [], true, {}, "")
  }

  lemma TextIsShown(text: string)
    requires Trim(text) != []
    ensures var (s, shown) := Apply(START, [TextRow(text)], 0);
            1 in s.processed && shown == [AssistantDelta(1, text, None)]
  {
    RunOne(Visitor(0), START, TextRow(text));
    assert Run(UseNext(1), Counted(State({1}, [], "", None, false), 0), []) == (Counted(State({1}, [], "", None, false), 0), []);
    var shown := Visit(START, TextRow(text), 0).1;
    assert shown == [] + [AssistantDelta(1, text, None)];
  }

  lemma OverlayOfOne(compact: string, full: string)
    ensures ReadRows([TextRow(compact)], []) == [TextRow(compact)]
    ensures ReadRows([TextRow(compact)], [TextRow(full)]) == [TextRow(full)]
  {
    var short, long := TextRow(compact), TextRow(full);
    assert [long][..0] == [] && ByStep([long]) == map[1 := long];
    assert [short][1..] == [] && Overlay([short], map[1 := long]) == [long];
    assert ByStep([]) == map[] && Overlay([short], map[]) == [short];
  }

  lemma ShownAlready(s: State, text: string)
    requires 1 in s.processed
    ensures Apply(s, [TextRow(text)], 0) == (s, [])
  {
    RunOne(Visitor(0), s, TextRow(text));
  }

  /** A full row that arrives after its step was shown comes too late: the tail keeps the
      compact text, while decoding the last read alone would show the full one. */
  lemma LateFullRow(compact: string, full: string)
    requires Trim(compact) != [] && Trim(full) != []
    ensures var polls := [ReadRows([TextRow(compact)], []), ReadRows([TextRow(compact)], [TextRow(full)])];
            && Poll(START, polls, 0).1 == [AssistantDelta(1, compact, None)]
            && Apply(START, polls[1], 0).1 == [AssistantDelta(1, full, None)]
  {
    var short, long := TextRow(compact), TextRow(full);
    var (s, shown) := Apply(START, [short], 0);
    OverlayOfOne(compact, full);
    TextIsShown(compact);
    TextIsShown(full);
    ShownAlready(s, full);
    var step := (t: State, rows: seq<Row>) => Apply(t, rows, 0);
    var polls := [[short], [long]];
    assert polls[..1] == [[short]];
    RunLast(step, START, polls);
    RunOne(step, START, [short]);
    assert shown + [] == shown;
  }

  // ---- Pairing of results with uses ----

  /** The tool uses of an event log not answered yet, oldest first. */
  function Outstanding(log: seq<Event>): seq<ToolId> {
    if log == [] then []
    else
      var prior, e := Outstanding(log[..|log| - 1]), log[|log| - 1];
      if e.ToolUse? then prior + [e.id]
      else if e.ToolResult? && e.answers.Some? then Without(prior, e.answers.value)
      else prior
  }

  ghost predicate Used(log: seq<Event>, id: ToolId) {
    exists i :: 0 <= i < |log| && log[i].ToolUse? && log[i].id == id
  }

  /** `e` may follow `log`: a use brings a new id, a result answers an outstanding use, and a
      result without an id means nothing was outstanding. */
  ghost predicate MayFollow(log: seq<Event>, e: Event) {
    match e
    case ToolUse(_, id, _, _) => !Used(log, id)
    case ToolResult(_, Some(id), _, _, _) => id in Outstanding(log)
    case ToolResult(_, None, _, _, _) => Outstanding(log) == []
    case _ => true
  }

  ghost predicate WellPaired(log: seq<Event>) {
    log == [] || (WellPaired(log[..|log| - 1]) && MayFollow(log[..|log| - 1], log[|log| - 1]))
  }

  lemma {:induction false} PrefixPaired(log: seq<Event>, i: nat)
    requires WellPaired(log) && i < |log|
    ensures WellPaired(log[..i]) && MayFollow(log[..i], log[i])
  {
    var prior := log[..|log| - 1];
    if i < |prior| {
      PrefixPaired(prior, i);
      assert prior[..i] == log[..i] && prior[i] == log[i];
    }
  }

  lemma {:induction false} OutstandingUsed(log: seq<Event>, id: ToolId)
    requires id in Outstanding(log)
    ensures Used(log, id)
  {
    var n := |log| - 1;
    var prior, e := log[..n], log[n];
    if e.ToolUse? && e.id == id {
    } else {
      if e.ToolResult? && e.answers.Some? {
        WithoutIn(Outstanding(prior), e.answers.value, id);
      }
      OutstandingUsed(prior, id);
      var i :| 0 <= i < n && prior[i].ToolUse? && prior[i].id == id;
      assert log[i] == prior[i];
    }
  }

  lemma StaysAnswered(log: seq<Event>, e: Event, id: ToolId)
    requires MayFollow(log, e) && Used(log, id) && id !in Outstanding(log)
    ensures Used(log + [e], id) && id !in Outstanding(log + [e])
  {
    var longer := log + [e];
    assert longer[..|log|] == log && longer[|log|] == e;
    var k :| 0 <= k < |log| && log[k].ToolUse? && log[k].id == id;
    assert longer[k] == log[k];
    if e.ToolResult? && e.answers.Some? {
      WithoutIn(Outstanding(log), e.answers.value, id);
    }
  }

  /** Once answered, an id never comes back. */
  lemma {:induction false} AnsweredStaysAnswered(log: seq<Event>, i: nat, id: ToolId)
    requires WellPaired(log) && i <= |log|
    requires Used(log[..i], id) && id !in Outstanding(log[..i])
    ensures Used(log, id) && id !in Outstanding(log)
  {
    if i == |log| {
      assert log[..i] == log;
    } else {
      var prior, e := log[..|log| - 1], log[|log| - 1];
      assert prior[..i] == log[..i];
      AnsweredStaysAnswered(prior, i, id);
      StaysAnswered(prior, e, id);
      assert prior + [e] == log;
    }
  }

  /** What a well-paired log promises its reader: every answered id names an earlier use, no
      id is used twice, and no id is answered twice. */
  lemma WellPairedMeans(log: seq<Event>, i: nat, j: nat)
    requires WellPaired(log) && i < j < |log|
    ensures log[j].ToolResult? && log[j].answers.Some? ==> Used(log[..j], log[j].answers.value)
    ensures log[i].ToolUse? && log[j].ToolUse? ==> log[i].id != log[j].id
    ensures log[i].ToolResult? && log[j].ToolResult? && log[i].answers.Some? ==> log[i].answers != log[j].answers
  {
    PrefixPaired(log, j);
    assert log[..j][i] == log[i];
    if log[j].ToolResult? && log[j].answers.Some? {
      var id := log[j].answers.value;
      OutstandingUsed(log[..j], id);
      if log[i].ToolResult? && log[i].answers == Some(id) {
        PrefixPaired(log, i);
        AnswerRemoves(log[..i], log[i], id);
        assert log[..j][..i + 1] == log[..i] + [log[i]];
        AnsweredStaysAnswered(log[..j], i + 1, id);
      }
    }
  }

  lemma AnswerRemoves(log: seq<Event>, e: Event, id: ToolId)
    requires MayFollow(log, e) && e.ToolResult? && e.answers == Some(id)
    ensures Used(log + [e], id) && id !in Outstanding(log + [e])
  {
    var longer := log + [e];
    assert longer[..|log|] == log && longer[|log|] == e;
    WithoutIn(Outstanding(log), id, id);
    OutstandingUsed(log, id);
    var k :| 0 <= k < |log| && log[k].ToolUse? && log[k].id == id;
    assert longer[k] == log[k];
  }

  /** The canonical name a tool id was used under. */
  function UseName(log: seq<Event>, id: ToolId): Option<string> {
    if log == [] then None
    else
      var e := log[|log| - 1];
      if e.ToolUse? && e.id == id then Some(Canonical(e.name)) else UseName(log[..|log| - 1], id)
  }

  function LastError(log: seq<Event>): Option<string> {
    if log == [] then None
    else if log[|log| - 1].ErrorReport? then Some(log[|log| - 1].message)
    else LastError(log[..|log| - 1])
  }

  /** The decoder state that has emitted exactly `log`. */
  ghost predicate Tracks(s: State, log: seq<Event>) {
    && WellPaired(log)
    && Outstanding(log) == Ids(s.outstanding)
    && (forall i :: 0 <= i < |log| && log[i].ToolUse? ==> log[i].id.step in s.processed)
    && NoDup(Ids(s.outstanding))
    && (forall i :: 0 <= i < |s.outstanding| ==> s.outstanding[i].id.step in s.processed)
    && (forall i :: 0 <= i < |s.outstanding| ==> UseName(log, s.outstanding[i].id) == Some(s.outstanding[i].name))
    && (s.visible <==> exists i :: 0 <= i < |log| && !log[i].ErrorReport?)
    && s.lastError == LastError(log)
  }

  lemma Follow(log: seq<Event>, e: Event)
    requires WellPaired(log) && MayFollow(log, e)
    ensures WellPaired(log + [e])
  {
    assert (log + [e])[..|log|] == log;
  }

  lemma TracksReport(s: State, log: seq<Event>, step: int, message: string)
    requires Tracks(s, log)
    ensures Tracks(s.(lastError := Some(message)), log + [ErrorReport(step, message)])
  {
    var e := ErrorReport(step, message);
    Follow(log, e);
    var longer := log + [e];
    assert longer[..|log|] == log;
    if s.visible {
      var i :| 0 <= i < |log| && !log[i].ErrorReport?;
      assert longer[i] == log[i];
    }
  }

  lemma TracksSay(s: State, log: seq<Event>, step: int, text: Option<string>)
    requires Tracks(s, log)
    ensures var (t, said) := Say(s, step, text); Tracks(t, log + said)
  {
    var said := Say(s, step, text).1;
    if text.None? {
      assert log + said == log;
    } else {
      Follow(log, said[0]);
      var longer := log + said;
      assert longer[..|log|] == log && longer[|log|] == said[0];
    }
  }

  lemma TracksUse(s: State, log: seq<Event>, e: Event)
    requires Tracks(s, log) && e.ToolUse?
    requires e.id.step in s.processed && !Used(log, e.id)
    ensures Tracks(s.(outstanding := s.outstanding + [Call(e.id, Canonical(e.name))], visible := true), log + [e])
  {
    Follow(log, e);
    var longer := log + [e];
    assert longer[..|log|] == log && longer[|log|] == e;
    var calls := s.outstanding + [Call(e.id, Canonical(e.name))];
    assert Ids(calls) == Ids(s.outstanding) + [e.id];
    if i :| 0 <= i < |s.outstanding| && s.outstanding[i].id == e.id {
      assert Ids(s.outstanding)[i] == e.id;
      OutstandingUsed(log, e.id);
    }
  }

  /** A result that answers the call at position `i`, or nothing when none is left. */
  lemma TracksResult(s: State, log: seq<Event>, e: Event, i: nat)
    requires Tracks(s, log) && e.ToolResult?
    requires i <= |s.outstanding| && (i == |s.outstanding| ==> i == 0) && e.answers == IdAt(s.outstanding, i)
    ensures Tracks(s.(outstanding := RemoveAt(s.outstanding, i), visible := true), log + [e])
  {
    var ids := Ids(s.outstanding);
    if i < |s.outstanding| {
      assert ids[i] in ids;
      WithoutAt(ids, i);
      assert Ids(RemoveAt(s.outstanding, i)) == ids[..i] + ids[i + 1..];
    }
    Follow(log, e);
    var longer := log + [e];
    assert longer[..|log|] == log && longer[|log|] == e;
  }

  /** Every use of `step` in the log has an index below `from`. */
  ghost predicate UsesBelow(log: seq<Event>, step: int, from: nat) {
    forall i :: 0 <= i < |log| && log[i].ToolUse? && log[i].id.step == step ==> log[i].id.index < from
  }

  lemma TracksNextUse(s: State, log: seq<Event>, step: int, call: ToolCall, from: nat)
    requires Tracks(s, log) && step in s.processed && UsesBelow(log, step, from)
    ensures var (t, events) := Use(s, step, from, call);
            Tracks(t, log + events) && step in t.processed && UsesBelow(log + events, step, from + 1)
  {
    TracksUse(s, log, ToolUse(step, ToolId(step, from), call.name, call.input));
  }

  lemma TracksUses(s: State, log: seq<Event>, step: int, calls: seq<ToolCall>)
    requires Tracks(s, log) && step in s.processed && UsesBelow(log, step, 0)
    ensures var (c, uses) := Run(UseNext(step), Counted(s, 0), calls); Tracks(c.s, log + uses)
  {
    var inv := (c: Counted, log: seq<Event>) =>
      Tracks(c.s, log) && step in c.s.processed && UsesBelow(log, step, c.next);
    forall c, log, call | inv(c, log)
      ensures inv(UseNext(step)(c, call).0, log + UseNext(step)(c, call).1)
    {
      TracksNextUse(c.s, log, step, call, c.next);
    }
    RunKeeps(UseNext(step), inv, Counted(s, 0), log, calls);
  }

  lemma FirstUnderBound(calls: seq<Call>, keys: seq<string>)
    ensures calls != [] ==> FirstUnder(calls, keys) < |calls|
  {
  }

  lemma TracksPlanner(s: State, log: seq<Event>, step: int, row: Row)
    requires Tracks(s, log) && step in s.processed && UsesBelow(log, step, 0)
    ensures var (t, events) := PlannerRow(s, step, row); Tracks(t, log + events)
  {
    var s0 := s.(reasoning := AddReasoning(s.reasoning, RowText(row.thinking)));
    TracksUses(s0, log, step, row.calls);
    var (c, uses) := Run(UseNext(step), Counted(s0, 0), row.calls);
    TracksSay(c.s, log + uses, step, RowText(row.content));
    var said := Say(c.s, step, RowText(row.content)).1;
    assert log + uses + said == log + (uses + said);
  }

  lemma TracksError(s: State, log: seq<Event>, step: int, row: Row)
    requires Tracks(s, log)
    ensures var (t, events) := ErrorRow(s, step, row); Tracks(t, log + events)
  {
    var message := ErrorText(row);
    TracksReport(s, log, step, message);
    if s.outstanding != [] {
      var report := ErrorReport(step, message);
      var e := ToolResult(step, Some(s.outstanding[0].id), row.rowType, message, true);
      var s1 := s.(lastError := Some(message));
      TracksResult(s1, log + [report], e, 0);
      assert RemoveAt(s1.outstanding, 0) == s.outstanding[1..];
      assert log + [report] + [e] == log + [report, e];
    }
  }

  lemma TracksRow(s: State, log: seq<Event>, step: int, row: Row)
    requires Tracks(s, log) && step !in s.processed
    ensures var (t, events) := RowEffect(s.(processed := s.processed + {step}), step, row);
            Tracks(t, log + events)
  {
    var s0 := s.(processed := s.processed + {step});
    assert Tracks(s0, log);
    if row.rowType == "PLANNER_RESPONSE" {
      TracksPlanner(s0, log, step, row);
    } else if row.rowType == "ERROR_MESSAGE" {
      TracksError(s0, log, step, row);
    } else if !SkipVisible(row.rowType) && row.content.Some? {
      var i := FirstUnder(s0.outstanding, Keys(row.rowType));
      FirstUnderBound(s0.outstanding, Keys(row.rowType));
      TracksResult(s0, log, ToolResult(step, IdAt(s0.outstanding, i), row.rowType, row.raw, false), i);
    } else {
      assert log + [] == log;
    }
  }

  lemma TracksVisit(s: State, log: seq<Event>, row: Row, baseline: int)
    requires Tracks(s, log)
    ensures var (t, events) := Visit(s, row, baseline); Tracks(t, log + events)
  {
    if Skipped(s, row, baseline) {
      assert log + [] == log;
    } else {
      TracksRow(s, log, row.step.value, row);
    }
  }

  /** Over any run the log is well paired, the decoder remembers exactly the uses still
      unanswered, in order, it has shown something exactly when it emitted more than bare
      errors, and it keeps the last error. */
  lemma EveryRunIsWellPaired(rows: seq<Row>, baseline: int)
    ensures var (t, log) := Apply(START, rows, baseline);
            && WellPaired(log)
            && Outstanding(log) == Ids(t.outstanding)
            && (t.visible <==> exists i :: 0 <= i < |log| && !log[i].ErrorReport?)
            && t.lastError == LastError(log)
  {
    RunTracks(rows, baseline);
  }

  lemma RunTracks(rows: seq<Row>, baseline: int)
    ensures var (t, log) := Apply(START, rows, baseline); Tracks(t, log)
  {
    var step, inv := Visitor(baseline), (s: State, log: seq<Event>) => Tracks(s, log);
    forall s, log, row | inv(s, log)
      ensures inv(step(s, row).0, log + step(s, row).1)
    {
      TracksVisit(s, log, row, baseline);
    }
    RunKeeps(step, inv, START, [], rows);
    var log := Apply(START, rows, baseline).1;
    assert [] + log == log;
  }

  /** `id` is the oldest outstanding use under this name. */
  ghost predicate OldestUse(log: seq<Event>, id: ToolId, name: string) {
    exists k :: 0 <= k < |Outstanding(log)| && FirstOfName(log, k, name) && Outstanding(log)[k] == id
  }

  ghost predicate FirstOfName(log: seq<Event>, k: nat, name: string)
    requires k < |Outstanding(log)|
  {
    UseName(log, Outstanding(log)[k]) == Some(name)
    && forall j :: 0 <= j < k ==> UseName(log, Outstanding(log)[j]) != Some(name)
  }

  ghost predicate SomeUse(log: seq<Event>, name: string) {
    exists k :: 0 <= k < |Outstanding(log)| && UseName(log, Outstanding(log)[k]) == Some(name)
  }

  lemma FirstNamedIsOldest(s: State, log: seq<Event>, name: string)
    requires Tracks(s, log)
    ensures var i := FirstNamed(s.outstanding, name);
            (i < |s.outstanding| <==> SomeUse(log, name))
            && (i < |s.outstanding| ==> OldestUse(log, s.outstanding[i].id, name))
  {
    var i, out := FirstNamed(s.outstanding, name), Outstanding(log);
    assert forall k :: 0 <= k < |out| ==> out[k] == s.outstanding[k].id && UseName(log, out[k]) == Some(s.outstanding[k].name);
    if i < |s.outstanding| {
      assert FirstOfName(log, i, name) && UseName(log, out[i]) == Some(name);
    }
  }

  /** Which use a result answers, after any rows: the oldest outstanding one of its own
      canonical name; if there is none, the oldest of that name without its `_result` ending;
      and otherwise the oldest of all. */
  lemma ResultAnswersItsName(rows: seq<Row>, baseline: int, row: Row)
    requires row.rowType != "PLANNER_RESPONSE" && row.rowType != "ERROR_MESSAGE" && !SkipVisible(row.rowType) && row.content.Some?
    requires !Skipped(Apply(START, rows, baseline).0, row, baseline)
    ensures var (s, log) := Apply(START, rows, baseline);
            var events := Visit(s, row, baseline).1;
            var name := Canonical(row.rowType);
            var short := if EndsWith(name, RESULT_SUFFIX) then Some(Canonical(StripSuffix(name, RESULT_SUFFIX))) else None;
            && |events| == 1 && events[0].ToolResult? && !events[0].isError
            && var answers := events[0].answers;
               if SomeUse(log, name) then answers.Some? && OldestUse(log, answers.value, name)
               else if short.Some? && SomeUse(log, short.value) then answers.Some? && OldestUse(log, answers.value, short.value)
               else answers == if Outstanding(log) == [] then None else Some(Outstanding(log)[0])
  {
    var (s, log) := Apply(START, rows, baseline);
    RunTracks(rows, baseline);
    var keys := Keys(row.rowType);
    FirstNamedIsOldest(s, log, keys[0]);
    if |keys| > 1 {
      FirstNamedIsOldest(s, log, keys[1]);
    }
    assert |keys| > 1 ==> keys[1..][0] == keys[1];
    assert keys[|keys|..] == [] && FirstUnder(s.outstanding, []) == 0;
    TwoKeys(s.outstanding, keys);
  }

  lemma TwoKeys(calls: seq<Call>, keys: seq<string>)
    requires 1 <= |keys| <= 2
    ensures FirstUnder(calls, keys) ==
            if FirstNamed(calls, keys[0]) < |calls| then FirstNamed(calls, keys[0])
            else if |keys| == 2 && FirstNamed(calls, keys[1]) < |calls| then FirstNamed(calls, keys[1])
            else 0
  {
    if |keys| == 2 {
      assert keys[1..] == [keys[1]] && [keys[1]][1..] == [];
    } else {
      assert keys[1..] == [];
    }
  }

  // ---- What a canonical name stands for ----

  /** Letters and digits in lower case, at least one. */
  predicate IsWord(w: string) {
    w != [] && forall i :: 0 <= i < |w| ==> 'a' <= w[i] <= 'z' || '0' <= w[i] <= '9'
  }

  /** The words of a name: its longest stretches of ASCII letters and digits, in lower case. */
  function Words(name: string): (words: seq<string>)
    ensures forall w :: w in words ==> IsWord(w)
    ensures name != [] && IsAlnum(name[0]) ==> words != []
  {
    if name == [] then []
    else if !IsAlnum(name[0]) then Words(name[1..])
    else if |name| > 1 && IsAlnum(name[1]) then
      var words := Words(name[1..]);
      assert IsWord(words[0]);
      [[LowerAscii(name[0])] + words[0]] + words[1..]
    else [[LowerAscii(name[0])]] + Words(name[1..])
  }

  lemma {:induction false} NonEmptyPieces(name: string)
    ensures NonEmpty(Split(Flat(name), '_')) == Words(name)
  {
    if name != [] {
      var rest := Split(Flat(name[1..]), '_');
      NonEmptyPieces(name[1..]);
      var c := Flat(name)[0];
      assert Flat(name) == [c] + Flat(name[1..]);
      if c == '_' {
        assert ([[]] + rest)[1..] == rest;
      } else {
        FirstPiece(name[1..]);
        var pieces := [[c] + rest[0]] + rest[1..];
        assert pieces[1..] == rest[1..] && NonEmpty(pieces) == [[c] + rest[0]] + NonEmpty(rest[1..]);
        if |name| > 1 && IsAlnum(name[1]) {
          var words := Words(name[1..]);
          assert words == [rest[0]] + NonEmpty(rest[1..]);
          assert words[0] == rest[0] && words[1..] == NonEmpty(rest[1..]);
        } else {
          assert rest[0] == [] && [c] + rest[0] == [c];
        }
      }
    }
  }

  /** The first piece is empty exactly when the name does not start with a letter or digit. */
  lemma FirstPiece(name: string)
    ensures var rest := Split(Flat(name), '_');
            if name != [] && IsAlnum(name[0]) then rest[0] != [] && NonEmpty(rest) == [rest[0]] + NonEmpty(rest[1..])
            else rest[0] == [] && NonEmpty(rest) == NonEmpty(rest[1..])
  {
    if name != [] {
      assert Flat(name)[0] == '_' <==> !IsAlnum(name[0]);
    }
  }

  lemma {:induction false} WordsAfterSpace(name: string)
    ensures Words(TrimStart(name)) == Words(name)
  {
    if name != [] && IsSpace(name[0]) {
      WordsAfterSpace(name[1..]);
    }
  }

  lemma {:induction false} WordsThenOther(name: string, c: char)
    requires !IsAlnum(c)
    ensures Words(name + [c]) == Words(name)
  {
    var longer := name + [c];
    if name == [] {
      assert longer[1..] == [];
    } else {
      assert longer[0] == name[0] && longer[1..] == name[1..] + [c];
      WordsThenOther(name[1..], c);
      if |name| > 1 {
        assert longer[1] == name[1];
      }
    }
  }

  lemma {:induction false} WordsBeforeSpace(name: string)
    ensures Words(TrimEnd(name)) == Words(name)
  {
    if name != [] && IsSpace(name[|name| - 1]) {
      var n := |name| - 1;
      WordsBeforeSpace(name[..n]);
      assert name == name[..n] + [name[n]];
      WordsThenOther(name[..n], name[n]);
    }
  }

  /** A name is normalized to its words, joined by underscores. */
  lemma NormalizedWords(name: string)
    ensures Normalize(name) == Join(Words(name), '_')
  {
    NonEmptyPieces(Trim(name));
    WordsBeforeSpace(TrimStart(name));
    WordsAfterSpace(name);
  }

  const LIST_DIR := ["list", "dir"]
  const LIST_DIRECTORY := ["list", "directory"]

  /** Two names of one tool: the same words, or both ways to name the listing of a directory. */
  predicate SameTool(a: string, b: string) {
    Words(a) == Words(b)
    || (Words(a) in [LIST_DIR, LIST_DIRECTORY] && Words(b) in [LIST_DIR, LIST_DIRECTORY])
  }

  lemma NothingJoined(words: seq<string>)
    requires forall w :: w in words ==> IsWord(w)
    ensures Join(words, '_') == [] <==> words == []
  {
    if words != [] {
      assert IsWord(words[0]);
    }
  }

  /** Words without underscores can be told from their join. */
  lemma JoinTellsWords(a: seq<string>, b: seq<string>)
    requires forall w :: w in a || w in b ==> IsWord(w)
    requires Join(a, '_') == Join(b, '_')
    ensures a == b
  {
    NothingJoined(a);
    NothingJoined(b);
    if a != [] && b != [] {
      SplitJoin(a, '_');
      SplitJoin(b, '_');
    }
  }

  lemma ListingJoins()
    ensures Join(LIST_DIR, '_') == "list_dir" && Join(LIST_DIRECTORY, '_') == "list_directory"
    ensures forall w :: w in LIST_DIR || w in LIST_DIRECTORY ==> IsWord(w)
  {
    assert LIST_DIR[1..] == ["dir"] && LIST_DIRECTORY[1..] == ["directory"];
  }

  lemma NormalizedListing(name: string)
    ensures Normalize(name) == "list_dir" <==> Words(name) == LIST_DIR
    ensures Normalize(name) == "list_directory" <==> Words(name) == LIST_DIRECTORY
  {
    NormalizedWords(name);
    ListingJoins();
    if Normalize(name) == "list_dir" {
      JoinTellsWords(Words(name), LIST_DIR);
    }
    if Normalize(name) == "list_directory" {
      JoinTellsWords(Words(name), LIST_DIRECTORY);
    }
  }

  /** Two names have one canonical name exactly when they name one tool. */
  lemma CanonicalNamesTheTool(a: string, b: string)
    ensures Canonical(a) == Canonical(b) <==> SameTool(a, b)
  {
    NormalizedListing(a);
    NormalizedListing(b);
    NormalizedWords(a);
    NormalizedWords(b);
    if Normalize(a) == Normalize(b) {
      JoinTellsWords(Words(a), Words(b));
    }
  }

  /** The same letter up to case, the same digit, or both neither letter nor digit. */
  predicate Alike(c: char, d: char) {
    || c == d
    || ('A' <= c <= 'Z' && d as int == c as int + 32)
    || ('a' <= c <= 'z' && d as int == c as int - 32)
    || !(('a' <= c <= 'z' || 'A' <= c <= 'Z' || '0' <= c <= '9') || ('a' <= d <= 'z' || 'A' <= d <= 'Z' || '0' <= d <= '9'))
  }

  /** Neither case nor the choice of separators makes a difference. */
  lemma {:induction false} SpellingIsFree(a: string, b: string)
    requires |a| == |b| && forall i :: 0 <= i < |a| ==> Alike(a[i], b[i])
    ensures Words(a) == Words(b)
  {
    if a != [] {
      assert Alike(a[0], b[0]) && (|a| > 1 ==> Alike(a[1], b[1]));
      assert forall i :: 0 <= i < |a| - 1 ==> a[1..][i] == a[i + 1] && b[1..][i] == b[i + 1];
      SpellingIsFree(a[1..], b[1..]);
    }
  }

  /** Joined words are the words of their join. */
  lemma {:induction false} WordsOfJoin(words: seq<string>)
    requires forall w :: w in words ==> IsWord(w)
    ensures Words(Join(words, '_')) == words
  {
    if words != [] {
      assert IsWord(words[0]);
      WordsOfJoin(words[1..]);
      if |words| == 1 {
        WordThenMore(words[0], "");
        assert words[0] + "" == words[0];
      } else {
        WordThenMore(words[0], "_" + Join(words[1..], '_'));
        assert words[0] + ("_" + Join(words[1..], '_')) == Join(words, '_');
        assert ("_" + Join(words[1..], '_'))[1..] == Join(words[1..], '_');
      }
    }
  }

  lemma {:induction false} WordThenMore(w: string, more: string)
    requires IsWord(w) && (more != [] ==> !IsAlnum(more[0]))
    ensures Words(w + more) == [w] + Words(more)
  {
    var text := w + more;
    assert text[0] == w[0] && text[1..] == w[1..] + more;
    if |w| > 1 {
      assert text[1] == w[1] && IsWord(w[1..]);
      WordThenMore(w[1..], more);
      assert [w[0]] + w[1..] == w;
    } else {
      assert w[1..] + more == more && w == [w[0]];
    }
  }

  /** The name under which a use went out. */
  function ToolOf(log: seq<Event>, id: ToolId): Option<string> {
    if log == [] then None
    else
      var e := log[|log| - 1];
      if e.ToolUse? && e.id == id then Some(e.name) else ToolOf(log[..|log| - 1], id)
  }

  lemma {:induction false} UseNameOfTool(log: seq<Event>, id: ToolId)
    ensures UseName(log, id) == match ToolOf(log, id) case None => None case Some(name) => Some(Canonical(name))
  {
    if log != [] {
      UseNameOfTool(log[..|log| - 1], id);
    }
  }

  /** The `k`-th outstanding use is one of this tool. */
  ghost predicate UseOf(log: seq<Event>, k: nat, tool: string)
    requires k < |Outstanding(log)|
  {
    var name := ToolOf(log, Outstanding(log)[k]);
    name.Some? && SameTool(name.value, tool)
  }

  ghost predicate OldestUseOf(log: seq<Event>, k: nat, tool: string) {
    k < |Outstanding(log)| && UseOf(log, k, tool) && forall j :: 0 <= j < k ==> !UseOf(log, j, tool)
  }

  ghost predicate NoUseOf(log: seq<Event>, tool: string) {
    forall j :: 0 <= j < |Outstanding(log)| ==> !UseOf(log, j, tool)
  }

  lemma UseOfByName(log: seq<Event>, k: nat, tool: string)
    requires k < |Outstanding(log)|
    ensures UseOf(log, k, tool) <==> UseName(log, Outstanding(log)[k]) == Some(Canonical(tool))
  {
    var id := Outstanding(log)[k];
    UseNameOfTool(log, id);
    if ToolOf(log, id).Some? {
      CanonicalNamesTheTool(ToolOf(log, id).value, tool);
    }
  }

  /** The `_result` ending is one word more. */
  lemma ResultEnding(rowType: string, tool: string)
    requires Words(tool) != [] && Words(rowType) == Words(tool) + ["result"]
    ensures var n := Canonical(rowType);
            EndsWith(n, RESULT_SUFFIX) && Canonical(StripSuffix(n, RESULT_SUFFIX)) == Canonical(tool)
  {
    var words := Words(tool);
    var text := Join(words, '_');
    NormalizedWords(rowType);
    NormalizedListing(rowType);
    NoListingEndsSo(words);
    JoinSnoc(words, "result");
    assert Canonical(rowType) == text + RESULT_SUFFIX;
    SuffixAppend(text, RESULT_SUFFIX);
    WordsOfJoin(words);
    CanonicalNamesTheTool(text, tool);
  }

  lemma NoListingEndsSo(words: seq<string>)
    ensures words + ["result"] != LIST_DIR && words + ["result"] != LIST_DIRECTORY
  {
    var longer := words + ["result"];
    assert longer[|words|] == "result" && |"result"| == 6 && |"dir"| == 3 && |"directory"| == 9;
  }

  lemma {:induction false} JoinSnoc(words: seq<string>, last: string)
    requires words != []
    ensures Join(words + [last], '_') == Join(words, '_') + ("_" + last)
  {
    var longer := words + [last];
    if |words| == 1 {
      assert longer[1..] == [last];
    } else {
      JoinSnoc(words[1..], last);
      assert longer[1..] == words[1..] + [last] && longer[0] == words[0];
    }
  }

  /** Which use a result answers, in terms of tools: the oldest outstanding use of the tool it is
      named after, in whatever case and with whatever separators; if there is none, and the
      row's last word is `result`, the oldest use of the tool that the other words name. */
  lemma ResultAnswersItsTool(rows: seq<Row>, baseline: int, row: Row, tool: string, k: nat)
    requires row.rowType != "PLANNER_RESPONSE" && row.rowType != "ERROR_MESSAGE" && !SkipVisible(row.rowType) && row.content.Some?
    requires !Skipped(Apply(START, rows, baseline).0, row, baseline)
    requires var log := Apply(START, rows, baseline).1; OldestUseOf(log, k, tool)
    requires var log := Apply(START, rows, baseline).1;
             || SameTool(row.rowType, tool)
             || (Words(tool) != [] && Words(row.rowType) == Words(tool) + ["result"] && NoUseOf(log, row.rowType))
    ensures var (s, log) := Apply(START, rows, baseline);
            Visit(s, row, baseline).1
              == [ToolResult(row.step.value, Some(Outstanding(log)[k]), row.rowType, row.raw, false)]
  {
    var (s, log) := Apply(START, rows, baseline);
    RunTracks(rows, baseline);
    var out := Outstanding(log);
    forall j: nat | j < |out|
      ensures UseOf(log, j, tool) <==> s.outstanding[j].name == Canonical(tool)
      ensures UseOf(log, j, row.rowType) <==> s.outstanding[j].name == Canonical(row.rowType)
    {
      UseOfByName(log, j, tool);
      UseOfByName(log, j, row.rowType);
      assert out[j] == s.outstanding[j].id;
    }
    assert FirstNamed(s.outstanding, Canonical(tool)) == k;
    var keys := Keys(row.rowType);
    TwoKeys(s.outstanding, keys);
    if SameTool(row.rowType, tool) {
      CanonicalNamesTheTool(row.rowType, tool);
    } else {
      ResultEnding(row.rowType, tool);
      assert FirstNamed(s.outstanding, keys[0]) == |s.outstanding|;
    }
  }

  function Upper(name: string): (r: string)
    ensures |r| == |name|
    ensures forall i :: 0 <= i < |r| ==> r[i] == if 'a' <= name[i] <= 'z' then ((name[i] as int) - 32) as char else name[i]
  {
    seq(|name|, i requires 0 <= i < |name| => if 'a' <= name[i] <= 'z' then ((name[i] as int) - 32) as char else name[i])
  }

  /** The CLI names a result row after its tool in upper case. */
  lemma UpperCaseNamesTheTool(tool: string)
    ensures SameTool(Upper(tool), tool)
  {
    SpellingIsFree(Upper(tool), tool);
  }

  /** And the listing of a directory by either of its names. */
  lemma ListingNamesTheTool()
    ensures SameTool(Upper("list_directory"), "list_dir") && SameTool(Upper("list_dir"), "list_directory")
  {
    UpperCaseNamesTheTool("list_directory");
    UpperCaseNamesTheTool("list_dir");
    ListingJoins();
    WordsOfJoin(LIST_DIR);
    WordsOfJoin(LIST_DIRECTORY);
  }

  // ---- What each row says ----

  /** The field has a text to show. */
  predicate Shows(field: Option<Json>) {
    field.Some? && (field.value.Container? || Trim(field.value.text) != [])
  }

  lemma {:induction false} UsesAreNumbered(c: Counted, step: int, calls: seq<ToolCall>)
    ensures var (t, events) := Run(UseNext(step), c, calls);
            && |events| == |calls| && t.s.reasoning == c.s.reasoning
            && forall k :: 0 <= k < |calls| ==> events[k] == ToolUse(step, ToolId(step, c.next + k), calls[k].name, calls[k].input)
    decreases calls
  {
    if calls != [] {
      var (d, first) := UseNext(step)(c, calls[0]);
      UsesAreNumbered(d, step, calls[1..]);
      var (t, rest) := Run(UseNext(step), d, calls[1..]);
      assert Run(UseNext(step), c, calls).1 == first + rest && |first| == 1;
      assert forall k :: 0 < k < |calls| ==> (first + rest)[k] == rest[k - 1] && calls[1..][k - 1] == calls[k];
    }
  }

  /** A planner row shows one use per call, numbered from zero and with its name and input, and
      then its text, if it has any to show. */
  lemma PlannerRowSays(s: State, row: Row, baseline: int)
    requires !Skipped(s, row, baseline) && row.rowType == "PLANNER_RESPONSE"
    ensures var events, n := Visit(s, row, baseline).1, |row.calls|;
            && |events| == n + (if Shows(row.content) then 1 else 0)
            && (forall k :: 0 <= k < n ==>
                  events[k] == ToolUse(row.step.value, ToolId(row.step.value, k), row.calls[k].name, row.calls[k].input))
            && (Shows(row.content) ==>
                  events[n].AssistantDelta? && events[n].step == row.step.value && events[n].text == row.content.value.text)
  {
    var s0 := s.(processed := s.processed + {row.step.value});
    var s1 := s0.(reasoning := AddReasoning(s0.reasoning, RowText(row.thinking)));
    UsesAreNumbered(Counted(s1, 0), row.step.value, row.calls);
    var (c, uses) := Run(UseNext(row.step.value), Counted(s1, 0), row.calls);
    assert Visit(s, row, baseline).1 == uses + Say(c.s, row.step.value, RowText(row.content)).1;
  }

  /** An error row reports its error, or else its content, or else a standing text, and is the
      result of the oldest outstanding call. */
  lemma ErrorRowSays(s: State, row: Row, baseline: int)
    requires !Skipped(s, row, baseline) && row.rowType == "ERROR_MESSAGE"
    ensures var events := Visit(s, row, baseline).1;
            var message := if Shows(row.error) then row.error.value.text
                           else if Shows(row.content) then row.content.value.text
                           else "antigravity CLI reported an error";
            events == [ErrorReport(row.step.value, message)]
                      + (if s.outstanding == [] then []
                         else [ToolResult(row.step.value, Some(s.outstanding[0].id), row.rowType, message, true)])
  {
  }

  /** Any other row is a tool result, unless it is one of four kinds that are not shown or has no
      content; those change nothing but the steps processed. */
  lemma OtherRowSays(s: State, row: Row, baseline: int)
    requires !Skipped(s, row, baseline) && row.rowType != "PLANNER_RESPONSE" && row.rowType != "ERROR_MESSAGE"
    ensures var (t, events) := Visit(s, row, baseline);
            if row.rowType in ["USER_INPUT", "CONVERSATION_HISTORY", "SYSTEM_MESSAGE", "CHECKPOINT"] || row.content.None?
            then events == [] && t == s.(processed := s.processed + {row.step.value})
            else |events| == 1 && events[0].ToolResult? && events[0].step == row.step.value && events[0].name == row.rowType
                 && events[0].content == row.raw && !events[0].isError
  {
  }

  function FieldOf(row: Row, name: string): Option<Json> {
    if name == "content" then row.content
    else if name == "thinking" then row.thinking
    else if name == "tool_calls" then row.toolCalls
    else if name == "error" then row.error
    else None
  }

  ghost predicate FieldSaysMore(compact: Row, full: Row, name: string) {
    FieldOf(full, name).Some? &&
    (name in compact.truncated || FieldOf(compact, name).None?
     || Utf8Len(FieldOf(full, name).value.text) > Utf8Len(FieldOf(compact, name).value.text))
  }

  /** A full row says more exactly when the compact one is truncated, or has a field that the full
      row has and that is marked as truncated, missing, or shorter in bytes. */
  lemma SaysMoreMeans(compact: Row, full: Row)
    ensures RowRicher(compact, full) <==> compact.isTruncated || exists name :: FieldSaysMore(compact, full, name)
  {
    if FieldRicher(compact.content, full.content, "content" in compact.truncated) {
      assert FieldSaysMore(compact, full, "content");
    } else if FieldRicher(compact.thinking, full.thinking, "thinking" in compact.truncated) {
      assert FieldSaysMore(compact, full, "thinking");
    } else if FieldRicher(compact.toolCalls, full.toolCalls, "tool_calls" in compact.truncated) {
      assert FieldSaysMore(compact, full, "tool_calls");
    } else if FieldRicher(compact.error, full.error, "error" in compact.truncated) {
      assert FieldSaysMore(compact, full, "error");
    }
  }

  // ---- Each step once, and no reasoning lost ----

  /** The row is the first one of its step, and its step is past the baseline. */
  predicate FirstOfStep(rows: seq<Row>, i: nat, baseline: int)
    requires i < |rows|
  {
    rows[i].step.Some? && rows[i].step.value > baseline && forall j :: 0 <= j < i ==> rows[j].step != rows[i].step
  }

  lemma {:induction false} ProcessedSteps(rows: seq<Row>, baseline: int, step: int)
    ensures step in Apply(START, rows, baseline).0.processed <==>
            step > baseline && exists i :: 0 <= i < |rows| && rows[i].step == Some(step)
  {
    if rows != [] {
      var n := |rows| - 1;
      var front := rows[..n];
      ProcessedSteps(front, baseline, step);
      RunLast(Visitor(baseline), START, rows);
      VisitProcessed(Apply(START, front, baseline).0, rows[n], baseline);
      if i :| 0 <= i < |rows| && rows[i].step == Some(step) {
        assert i < n ==> front[i].step == Some(step);
      }
      if i :| 0 <= i < n && front[i].step == Some(step) {
        assert rows[i].step == Some(step);
      }
    }
  }

  /** The rows decoded are exactly the first ones of the steps past the baseline. */
  lemma EachStepOnce(rows: seq<Row>, baseline: int, i: nat)
    requires i < |rows|
    ensures Skipped(Apply(START, rows[..i], baseline).0, rows[i], baseline) <==> !FirstOfStep(rows, i, baseline)
  {
    if rows[i].step.Some? {
      ProcessedSteps(rows[..i], baseline, rows[i].step.value);
      assert forall j :: 0 <= j < i ==> rows[..i][j] == rows[j];
    }
  }

  // ---- When tailing the two files equals decoding the last read ----

  /** The row is decoded from `s` on: past the baseline, not decoded before, and the first one of
      its step. */
  predicate Decodes(s: State, rows: seq<Row>, i: nat, baseline: int)
    requires i < |rows|
  {
    !Skipped(s, rows[i], baseline) && forall j :: 0 <= j < i ==> rows[j].step != rows[i].step
  }

  /** The rows decoded, in order. */
  function Decoded(s: State, rows: seq<Row>, baseline: int): seq<Row> {
    if rows == [] then []
    else
      var n := |rows| - 1;
      Decoded(s, rows[..n], baseline) + (if Decodes(s, rows, n, baseline) then [rows[n]] else [])
  }

  lemma {:induction false} ProcessedFrom(s: State, rows: seq<Row>, baseline: int, row: Row)
    ensures Skipped(Apply(s, rows, baseline).0, row, baseline) <==>
            Skipped(s, row, baseline) || exists i :: 0 <= i < |rows| && rows[i].step == row.step
  {
    if rows != [] {
      var n := |rows| - 1;
      var front := rows[..n];
      ProcessedFrom(s, front, baseline, row);
      RunLast(Visitor(baseline), s, rows);
      VisitProcessed(Apply(s, front, baseline).0, rows[n], baseline);
      assert forall i :: 0 <= i < n ==> rows[i] == front[i];
    }
  }

  /** These are the rows that the decoder does not skip when it comes to them. */
  lemma DecodesMeans(s: State, rows: seq<Row>, i: nat, baseline: int)
    requires i < |rows|
    ensures Decodes(s, rows, i, baseline) <==> !Skipped(Apply(s, rows[..i], baseline).0, rows[i], baseline)
  {
    ProcessedFrom(s, rows[..i], baseline, rows[i]);
    assert forall j :: 0 <= j < i ==> rows[..i][j] == rows[j];
    if j :| 0 <= j < i && rows[j].step == rows[i].step {
      assert rows[..i][j].step == rows[i].step;
    }
  }

  /** Decoding a read is decoding the rows that it decodes. */
  lemma {:induction false} DecodedDecides(s: State, rows: seq<Row>, baseline: int)
    ensures Apply(s, rows, baseline) == Apply(s, Decoded(s, rows, baseline), baseline)
  {
    if rows != [] {
      var n := |rows| - 1;
      var front := rows[..n];
      var kept := Decoded(s, front, baseline);
      DecodedDecides(s, front, baseline);
      RunLast(Visitor(baseline), s, rows);
      ProcessedFrom(s, front, baseline, rows[n]);
      assert forall j :: 0 <= j < n ==> rows[j] == front[j];
      var (s1, e1) := Apply(s, front, baseline);
      if Decodes(s, rows, n, baseline) {
        RunAppend(Visitor(baseline), s, kept, [rows[n]]);
        RunOne(Visitor(baseline), s1, rows[n]);
      } else {
        assert Visit(s1, rows[n], baseline) == (s1, []);
        assert e1 + [] == e1 && kept + [] == kept;
      }
    }
  }

  /** Two reads have the same row wherever the second one decodes it. */
  ghost predicate AgreeWhereDecoded(s: State, a: seq<Row>, b: seq<Row>, baseline: int)
    requires |a| == |b|
  {
    forall i :: 0 <= i < |a| && Decodes(s, b, i, baseline) ==> a[i] == b[i]
  }

  lemma AgreeStep(s: State, a: seq<Row>, b: seq<Row>, baseline: int)
    requires |a| == |b| > 0
    ensures var n := |a| - 1;
            AgreeWhereDecoded(s, a, b, baseline)
            <==> AgreeWhereDecoded(s, a[..n], b[..n], baseline) && (Decodes(s, b, n, baseline) ==> a[n] == b[n])
  {
    var n := |a| - 1;
    forall i | 0 <= i < n
      ensures Decodes(s, b, i, baseline) <==> Decodes(s, b[..n], i, baseline)
      ensures a[..n][i] == a[i] && b[..n][i] == b[i]
    {
      assert forall j :: 0 <= j <= i ==> b[..n][j] == b[j];
    }
  }

  lemma SameEnds(x: seq<Row>, y: seq<Row>, a: Row, b: Row)
    requires |x| == |y|
    ensures x + [a] == y + [b] <==> x == y && a == b
  {
    assert (x + [a])[..|x|] == x && (y + [b])[..|y|] == y;
    assert (x + [a])[|x|] == a && (y + [b])[|y|] == b;
  }

  /** Two reads of the same steps decode the same rows exactly when they agree on those. */
  lemma {:induction false} SameDecoded(s: State, a: seq<Row>, b: seq<Row>, baseline: int)
    requires |a| == |b| && forall i :: 0 <= i < |a| ==> a[i].step == b[i].step
    ensures |Decoded(s, a, baseline)| == |Decoded(s, b, baseline)|
    ensures Decoded(s, a, baseline) == Decoded(s, b, baseline) <==> AgreeWhereDecoded(s, a, b, baseline)
  {
    if a != [] {
      var n := |a| - 1;
      SameDecoded(s, a[..n], b[..n], baseline);
      AgreeStep(s, a, b, baseline);
      var x, y := Decoded(s, a[..n], baseline), Decoded(s, b[..n], baseline);
      if Decodes(s, b, n, baseline) {
        assert Decodes(s, a, n, baseline);
        SameEnds(x, y, a[n], b[n]);
        assert Decoded(s, a, baseline) == x + [a[n]] && Decoded(s, b, baseline) == y + [b[n]];
      } else {
        assert !Decodes(s, a, n, baseline);
        assert Decoded(s, a, baseline) == x + [] == x && Decoded(s, b, baseline) == y + [] == y;
      }
    }
  }

  /** Tailing the two files decodes the rows of the last read, and so emits the events and leaves
      the decoder of decoding it alone, exactly when every row that is decoded was picked at first
      sight as it is in the last read. Full rows that come late but say no more, that belong to a
      step at or below the baseline, or whose step an earlier row had, do no harm. */
  lemma TailingFilesEqualsOneShot(s: State, files: seq<Files>, baseline: int)
    requires files != [] && CompactGrows(files)
    ensures var last := ReadRows(files[|files| - 1].compact, files[|files| - 1].full);
            var seen := FirstSight(files);
            && |seen| == |last|
            && Poll(s, ReadAll(files), baseline) == Apply(s, Decoded(s, seen, baseline), baseline)
            && Apply(s, last, baseline) == Apply(s, Decoded(s, last, baseline), baseline)
            && (Decoded(s, seen, baseline) == Decoded(s, last, baseline)
                <==> AgreeWhereDecoded(s, seen, last, baseline))
  {
    var f := files[|files| - 1];
    var last := ReadRows(f.compact, f.full);
    ReadKeepsSteps(f);
    TailingDecodesFirstSight(s, files, baseline);
    DecodedDecides(s, FirstSight(files), baseline);
    DecodedDecides(s, last, baseline);
    SameDecoded(s, FirstSight(files), last, baseline);
  }

  function Thought(row: Row): seq<string> {
    match RowText(row.thinking) case None => [] case Some(text) => [text]
  }

  /** The reasoning of the planner rows decoded so far that no text has carried yet. */
  function Unsaid(rows: seq<Row>, baseline: int): seq<string> {
    if rows == [] then []
    else
      var n := |rows| - 1;
      var earlier := Unsaid(rows[..n], baseline);
      if !FirstOfStep(rows, n, baseline) || rows[n].rowType != "PLANNER_RESPONSE" then earlier
      else if RowText(rows[n].content).Some? then []
      else earlier + Thought(rows[n])
  }

  /** Pieces put together with blank lines between them. */
  function Glued(thoughts: seq<string>): string {
    if thoughts == [] then ""
    else
      var n := |thoughts| - 1;
      var before := Glued(thoughts[..n]);
      if before == "" then thoughts[n] else before + "\n\n" + thoughts[n]
  }

  lemma UsesReasoning(s: State, step: int, calls: seq<ToolCall>)
    ensures Run(UseNext(step), Counted(s, 0), calls).0.s.reasoning == s.reasoning
  {
    var inv := (c: Counted, log: seq<Event>) => c.s.reasoning == s.reasoning;
    RunKeeps(UseNext(step), inv, Counted(s, 0), [], calls);
  }

  /** What one planner row does to the reasoning gathered before it. */
  lemma PlannerReasoning(s: State, step: int, row: Row, thoughts: seq<string>)
    requires s.reasoning == Glued(thoughts)
    ensures var (t, events) := PlannerRow(s, step, row);
            var all := Glued(thoughts + Thought(row));
            match RowText(row.content)
            case None => t.reasoning == all
            case Some(text) =>
              t.reasoning == "" && events != []
              && events[|events| - 1] == AssistantDelta(step, text, if all == "" then None else Some(all))
  {
    var s0 := s.(reasoning := AddReasoning(s.reasoning, RowText(row.thinking)));
    UsesReasoning(s0, step, row.calls);
    assert s0.reasoning == Glued(thoughts + Thought(row)) by {
      if RowText(row.thinking).Some? {
        assert (thoughts + Thought(row))[..|thoughts|] == thoughts;
      } else {
        assert thoughts + Thought(row) == thoughts;
      }
    }
  }

  /** Over any rows the decoder holds exactly the reasoning no text has carried yet. */
  lemma {:induction false} ReasoningIsGathered(rows: seq<Row>, baseline: int)
    ensures Apply(START, rows, baseline).0.reasoning == Glued(Unsaid(rows, baseline))
  {
    if rows != [] {
      var n := |rows| - 1;
      var front, row := rows[..n], rows[n];
      ReasoningIsGathered(front, baseline);
      RunLast(Visitor(baseline), START, rows);
      EachStepOnce(rows, baseline, n);
      var s := Apply(START, front, baseline).0;
      if FirstOfStep(rows, n, baseline) && row.rowType == "PLANNER_RESPONSE" {
        var k := row.step.value;
        PlannerReasoning(s.(processed := s.processed + {k}), k, row, Unsaid(front, baseline));
      }
    }
  }

  /** A planner row with text carries all reasoning since the last one, its own included, in
      order; and none is carried twice. */
  lemma TextCarriesTheReasoning(rows: seq<Row>, baseline: int, row: Row)
    requires row.rowType == "PLANNER_RESPONSE" && RowText(row.content).Some?
    requires FirstOfStep(rows + [row], |rows|, baseline)
    ensures var s := Apply(START, rows, baseline).0;
            var (t, events) := Visit(s, row, baseline);
            var all := Glued(Unsaid(rows, baseline) + Thought(row));
            && events != [] && t.reasoning == "" && Unsaid(rows + [row], baseline) == []
            && events[|events| - 1] == AssistantDelta(row.step.value, RowText(row.content).value, if all == "" then None else Some(all))
  {
    var s, longer := Apply(START, rows, baseline).0, rows + [row];
    assert longer[..|rows|] == rows && longer[|rows|] == row;
    ReasoningIsGathered(rows, baseline);
    EachStepOnce(longer, baseline, |rows|);
    PlannerReasoning(s.(processed := s.processed + {row.step.value}), row.step.value, row, Unsaid(rows, baseline));
  }

  // ---- The two indexes ----

  /** The anonymous FIFO lists the unanswered calls; every queue lists those of its name. */
  ghost predicate Agree(queues: map<string, seq<ToolId>>, anonymous: seq<ToolId>, calls: seq<Call>) {
    && anonymous == Ids(calls)
    && (forall k :: k in queues ==> queues[k] == IdsNamed(calls, k))
    && (forall i :: 0 <= i < |calls| ==> calls[i].name in queues)
  }

  lemma {:induction false} IdsNamedAppend(a: seq<Call>, b: seq<Call>, name: string)
    ensures IdsNamed(a + b, name) == IdsNamed(a, name) + IdsNamed(b, name)
  {
    if a == [] {
      assert a + b == b;
    } else {
      IdsNamedAppend(a[1..], b, name);
      assert (a + b)[1..] == a[1..] + b;
    }
  }

  lemma {:induction false} IdsNamedIn(calls: seq<Call>, name: string, id: ToolId)
    ensures id in IdsNamed(calls, name) <==> exists i :: 0 <= i < |calls| && calls[i] == Call(id, name)
  {
    if calls != [] {
      IdsNamedIn(calls[1..], name, id);
      if i :| 0 <= i < |calls| && calls[i] == Call(id, name) {
        if i > 0 {
          assert calls[1..][i - 1] == Call(id, name);
        }
      }
      if id in IdsNamed(calls[1..], name) {
        var j :| 0 <= j < |calls| - 1 && calls[1..][j] == Call(id, name);
        assert calls[j + 1] == Call(id, name);
      }
    }
  }

  lemma NotNamed(calls: seq<Call>, part: seq<Call>, i: nat, name: string, offset: nat)
    requires i < |calls| && NoDup(Ids(calls)) && offset + |part| <= |calls|
    requires forall j :: 0 <= j < |part| ==> part[j] == calls[offset + j]
    requires i < offset || offset + |part| <= i
    ensures calls[i].id !in IdsNamed(part, name)
  {
    IdsNamedIn(part, name, calls[i].id);
    forall j | 0 <= j < |part|
      ensures part[j].id != calls[i].id
    {
      var ids := Ids(calls);
      assert ids[offset + j] == part[j].id && ids[i] == calls[i].id;
    }
  }

  lemma {:induction false} IdsNamedNoDup(calls: seq<Call>, name: string)
    requires NoDup(Ids(calls))
    ensures NoDup(IdsNamed(calls, name))
  {
    if calls != [] {
      var rest := calls[1..];
      assert forall i :: 0 <= i < |rest| ==> Ids(rest)[i] == Ids(calls)[i + 1];
      IdsNamedNoDup(rest, name);
      NotNamed(calls, rest, 0, name, 1);
    }
  }

  /** Every waiting id is in exactly one queue, its own name's, and each queue is the anonymous
      FIFO with some ids left out; nothing is listed twice. */
  lemma QueuesPartitionAnonymous(queues: map<string, seq<ToolId>>, anonymous: seq<ToolId>, calls: seq<Call>)
    requires Agree(queues, anonymous, calls) && NoDup(Ids(calls))
    ensures NoDup(anonymous) && forall k :: k in queues ==> NoDup(queues[k])
    ensures forall i :: 0 <= i < |calls| ==>
              forall k :: k in queues ==> (anonymous[i] in queues[k] <==> k == calls[i].name)
    ensures forall k, id :: k in queues && id in queues[k] ==> id in anonymous
    ensures forall k :: k in queues ==> Subsequence(queues[k], anonymous)
  {
    forall k | k in queues
      ensures NoDup(queues[k]) && Subsequence(queues[k], anonymous)
    {
      IdsNamedNoDup(calls, k);
      QueueIsSubsequence(calls, k);
    }
    forall i, k | 0 <= i < |calls| && k in queues
      ensures anonymous[i] in queues[k] <==> k == calls[i].name
    {
      OnlyInOwnQueue(calls, i, k);
    }
    forall k, id | k in queues && id in queues[k]
      ensures id in anonymous
    {
      IdsNamedIn(calls, k, id);
      var i :| 0 <= i < |calls| && calls[i] == Call(id, k);
      assert anonymous[i] == id;
    }
  }

  lemma OnlyInOwnQueue(calls: seq<Call>, i: nat, name: string)
    requires i < |calls| && NoDup(Ids(calls))
    ensures calls[i].id in IdsNamed(calls, name) <==> name == calls[i].name
  {
    IdsNamedIn(calls, name, calls[i].id);
    if j :| 0 <= j < |calls| && calls[j] == Call(calls[i].id, name) {
      assert Ids(calls)[j] == Ids(calls)[i];
    }
    if name == calls[i].name {
      assert calls[i] == Call(calls[i].id, name);
    }
  }

  /** `a` is `b` with some elements left out. */
  predicate Subsequence(a: seq<ToolId>, b: seq<ToolId>) {
    a == [] || (b != [] && if a[0] == b[0] then Subsequence(a[1..], b[1..]) else Subsequence(a, b[1..]))
  }

  lemma {:induction false} QueueIsSubsequence(calls: seq<Call>, name: string)
    requires NoDup(Ids(calls))
    ensures Subsequence(IdsNamed(calls, name), Ids(calls))
  {
    if calls != [] {
      var ids, rest := Ids(calls), Ids(calls[1..]);
      assert forall m :: 0 <= m < |rest| ==> rest[m] == ids[m + 1];
      assert ids[1..] == rest;
      QueueIsSubsequence(calls[1..], name);
      OnlyInOwnQueue(calls, 0, name);
    }
  }

  /** Taking a call out of the list takes its id out of every queue. */
  lemma IdsNamedRemove(calls: seq<Call>, i: nat, name: string)
    requires i < |calls| && NoDup(Ids(calls))
    ensures IdsNamed(RemoveAt(calls, i), name) == Without(IdsNamed(calls, name), calls[i].id)
    ensures name != calls[i].name ==> IdsNamed(RemoveAt(calls, i), name) == IdsNamed(calls, name)
  {
    var a, c, b := calls[..i], calls[i], calls[i + 1..];
    assert calls == a + ([c] + b);
    IdsNamedAppend(a, [c] + b, name);
    IdsNamedAppend([c], b, name);
    IdsNamedAppend(a, b, name);
    assert [c][1..] == [];
    WithoutAppend(IdsNamed(a, name), IdsNamed([c] + b, name), c.id);
    WithoutAppend(IdsNamed([c], name), IdsNamed(b, name), c.id);
    NotNamed(calls, a, i, name, 0);
    NotNamed(calls, b, i, name, i + 1);
    WithoutAbsent(IdsNamed(a, name), c.id);
    WithoutAbsent(IdsNamed(b, name), c.id);
    if c.name != name {
      assert [] + IdsNamed(b, name) == IdsNamed(b, name);
    } else {
      assert Without([c.id], c.id) == [];
    }
  }

  lemma {:induction false} NoneNamed(calls: seq<Call>, name: string)
    requires forall i :: 0 <= i < |calls| ==> calls[i].name != name
    ensures IdsNamed(calls, name) == []
  {
    if calls != [] {
      NoneNamed(calls[1..], name);
    }
  }

  /** The head of a name's queue is the first call of that name. */
  lemma {:induction false} QueueHead(calls: seq<Call>, name: string)
    ensures var i := FirstNamed(calls, name);
            (IdsNamed(calls, name) == [] <==> i == |calls|)
            && (i < |calls| ==> IdsNamed(calls, name)[0] == calls[i].id)
  {
    if calls != [] && calls[0].name != name {
      QueueHead(calls[1..], name);
    }
  }

  lemma IdsRemove(calls: seq<Call>, i: nat)
    requires i < |calls| && NoDup(Ids(calls))
    ensures Ids(RemoveAt(calls, i)) == Without(Ids(calls), calls[i].id) && NoDup(Ids(RemoveAt(calls, i)))
  {
    var ids := Ids(calls);
    WithoutAt(ids, i);
    assert Ids(RemoveAt(calls, i)) == ids[..i] + ids[i + 1..];
  }

  lemma AgreeAfterRemove(queues: map<string, seq<ToolId>>, calls: seq<Call>, i: nat)
    requires i < |calls| && NoDup(Ids(calls)) && Agree(queues, Ids(calls), calls)
    ensures var c, rest := calls[i], RemoveAt(calls, i);
            && Agree(queues[c.name := Without(queues[c.name], c.id)], Without(Ids(calls), c.id), rest)
            && NoDup(Ids(rest))
  {
    IdsRemove(calls, i);
    NamesStay(queues, calls, i);
    forall k | k in queues
      ensures IdsNamed(RemoveAt(calls, i), k) == if k == calls[i].name then Without(queues[k], calls[i].id) else queues[k]
    {
      IdsNamedRemove(calls, i, k);
    }
  }

  lemma NamesStay(queues: map<string, seq<ToolId>>, calls: seq<Call>, i: nat)
    requires i < |calls| && forall j :: 0 <= j < |calls| ==> calls[j].name in queues
    ensures forall j :: 0 <= j < |RemoveAt(calls, i)| ==> RemoveAt(calls, i)[j].name in queues
  {
    forall j | 0 <= j < |RemoveAt(calls, i)|
      ensures RemoveAt(calls, i)[j].name in queues
    {
      assert RemoveAt(calls, i)[j] == calls[if j < i then j else j + 1];
    }
  }

  /** The call at `i` leaves both indexes when its id is cut out of its queue at `p`. */
  lemma AgreeAfterPop(queues: map<string, seq<ToolId>>, calls: seq<Call>, i: nat, p: nat)
    requires i < |calls| && NoDup(Ids(calls)) && Agree(queues, Ids(calls), calls)
    requires p < |queues[calls[i].name]| && queues[calls[i].name][p] == calls[i].id
    ensures var c, rest := calls[i], RemoveAt(calls, i);
            && Agree(queues[c.name := RemoveAt(queues[c.name], p)], Without(Ids(calls), c.id), rest)
            && NoDup(Ids(rest))
  {
    AgreeAfterRemove(queues, calls, i);
    IdsNamedNoDup(calls, calls[i].name);
    WithoutAt(queues[calls[i].name], p);
  }

  lemma HeadPops(queues: map<string, seq<ToolId>>, calls: seq<Call>, key: string)
    requires NoDup(Ids(calls)) && Agree(queues, Ids(calls), calls)
    requires key in queues && queues[key] != []
    ensures var i := FirstNamed(calls, key);
            && i < |calls| && queues[key][0] == calls[i].id
            && Agree(queues[key := queues[key][1..]], Without(Ids(calls), calls[i].id), RemoveAt(calls, i))
            && NoDup(Ids(RemoveAt(calls, i)))
  {
    var i := FirstNamed(calls, key);
    QueueHead(calls, key);
    AgreeAfterPop(queues, calls, i, 0);
    assert RemoveAt(queues[key], 0) == queues[key][1..];
  }

  lemma NothingUnder(queues: map<string, seq<ToolId>>, calls: seq<Call>, key: string)
    requires Agree(queues, Ids(calls), calls) && (key !in queues || queues[key] == [])
    ensures FirstNamed(calls, key) == |calls|
  {
    QueueHead(calls, key);
  }

  predicate Within(calls: seq<Call>, steps: set<int>) {
    forall i :: 0 <= i < |calls| ==> calls[i].id.step in steps
  }

  lemma WithinRemove(calls: seq<Call>, steps: set<int>, i: nat)
    requires Within(calls, steps) && i <= |calls|
    ensures Within(RemoveAt(calls, i), steps)
  {
    var rest := RemoveAt(calls, i);
    forall j | 0 <= j < |rest|
      ensures rest[j].id.step in steps
    {
      assert rest[j] == calls[if j < i then j else j + 1];
    }
  }

  lemma AgreeAfterPush(queues: map<string, seq<ToolId>>, calls: seq<Call>, c: Call)
    requires Agree(queues, Ids(calls), calls)
    ensures var queue := if c.name in queues then queues[c.name] else [];
            Agree(queues[c.name := queue + [c.id]], Ids(calls) + [c.id], calls + [c])
  {
    forall k
      ensures IdsNamed(calls + [c], k) == IdsNamed(calls, k) + (if k == c.name then [c.id] else [])
    {
      IdsNamedAppend(calls, [c], k);
      assert [c][1..] == [];
    }
    if c.name !in queues {
      NoneNamed(calls, c.name);
    }
    assert Ids(calls + [c]) == Ids(calls) + [c.id];
  }

  /** The queues are searched in no particular order, up to one that holds the id. */
  method QueueHolding(queues: map<string, seq<ToolId>>, id: ToolId) returns (key: string)
    requires exists k :: k in queues && id in queues[k]
    ensures key in queues && id in queues[key]
  {
    ghost var owner :| owner in queues && id in queues[owner];
    var keys := queues.Keys;
    key := "";
    while true
      invariant keys <= queues.Keys && owner in keys
      decreases keys
    {
      key :| key in keys;
      if id in queues[key] {
        return;
      }
      keys := keys - {key};
    }
  }

  /** The decoder object. `outstanding` is the one list its two indexes stand for. */
  class Decoder {
    var processedSteps: set<int>
    var pendingTools: map<string, seq<ToolId>>
    var anonymousPending: seq<ToolId>
    var pendingReasoning: string
    var lastError: Option<string>
    var visibleOutput: bool
    ghost var outstanding: seq<Call>

    ghost predicate Valid()
      reads this
    {
      && Agree(pendingTools, anonymousPending, outstanding)
      && NoDup(Ids(outstanding))
      && Within(outstanding, processedSteps)
    }

    ghost function Abstract(): State
      reads this
    {
      State(processedSteps, outstanding, pendingReasoning, lastError, visibleOutput)
    }

    constructor ()
      ensures Valid() && Abstract() == START
    {
      processedSteps, pendingTools, anonymousPending := {}, map[], [];
      pendingReasoning, lastError, visibleOutput := "", None, false;
      outstanding := [];
    }

    method PopAnyToolId() returns (answer: Option<ToolId>)
      requires Valid()
      modifies this
      ensures Valid()
      ensures answer == IdAt(old(outstanding), 0)
      ensures Abstract() == old(Abstract()).(outstanding := RemoveAt(old(outstanding), 0))
    {
      if anonymousPending == [] {
        return None;
      }
      var id := anonymousPending[0];
      assert id in pendingTools[outstanding[0].name] by {
        OnlyInOwnQueue(outstanding, 0, outstanding[0].name);
      }
      var key := QueueHolding(pendingTools, id);
      OnlyInOwnQueue(outstanding, 0, key);
      var position := IndexOf(pendingTools[key], id);
      AgreeAfterPop(pendingTools, outstanding, 0, position);
      WithinRemove(outstanding, processedSteps, 0);
      WithoutAt(anonymousPending, 0);
      pendingTools := pendingTools[key := RemoveAt(pendingTools[key], position)];
      anonymousPending := anonymousPending[1..];
      outstanding := RemoveAt(outstanding, 0);
      answer := Some(id);
    }

    method PopFromQueue(key: string) returns (answer: Option<ToolId>)
      requires Valid()
      modifies this
      ensures Valid()
      ensures var i := FirstNamed(old(outstanding), key);
              answer == IdAt(old(outstanding), i)
              && Abstract() == old(Abstract()).(outstanding := RemoveAt(old(outstanding), i))
    {
      if key !in pendingTools || pendingTools[key] == [] {
        NothingUnder(pendingTools, outstanding, key);
        return None;
      }
      ghost var i := FirstNamed(outstanding, key);
      HeadPops(pendingTools, outstanding, key);
      WithinRemove(outstanding, processedSteps, i);
      var id := pendingTools[key][0];
      pendingTools := pendingTools[key := pendingTools[key][1..]];
      RemoveAnonymousPending(id);
      outstanding := RemoveAt(outstanding, i);
      answer := Some(id);
    }

    method PopToolIdForName(toolName: string) returns (answer: Option<ToolId>)
      requires Valid()
      modifies this
      ensures Valid()
      ensures var i := FirstUnder(old(outstanding), Keys(toolName));
              answer == IdAt(old(outstanding), i)
              && Abstract() == old(Abstract()).(outstanding := RemoveAt(old(outstanding), i))
    {
      var keys := Keys(toolName);
      var k := 0;
      while k < |keys|
        invariant 0 <= k <= |keys|
        invariant Valid() && Abstract() == old(Abstract())
        invariant FirstUnder(outstanding, keys) == FirstUnder(outstanding, keys[k..])
      {
        assert keys[k..][1..] == keys[k + 1..];
        answer := PopFromQueue(keys[k]);
        if answer.Some? {
          return;
        }
        k := k + 1;
      }
      answer := PopAnyToolId();
    }

    method RemoveAnonymousPending(id: ToolId)
      requires NoDup(anonymousPending)
      modifies this`anonymousPending
      ensures anonymousPending == Without(old(anonymousPending), id)
    {
      var position := IndexOf(anonymousPending, id);
      if position < |anonymousPending| {
        WithoutAt(anonymousPending, position);
        anonymousPending := anonymousPending[..position] + anonymousPending[position + 1..];
      } else {
        WithoutAbsent(anonymousPending, id);
      }
    }

    /** The loop over a planner row's calls. */
    method EmitToolUses(step: int, calls: seq<ToolCall>) returns (events: seq<Event>)
      requires Valid() && step in processedSteps
      requires forall i :: 0 <= i < |outstanding| ==> outstanding[i].id.step != step
      modifies this
      ensures Valid()
      ensures (Counted(Abstract(), |calls|), events) == Run(UseNext(step), Counted(old(Abstract()), 0), calls)
    {
      events := [];
      var index := 0;
      assert calls[..0] == [];
      while index < |calls|
        invariant 0 <= index <= |calls| && step in processedSteps
        invariant Valid()
        invariant forall i :: 0 <= i < |outstanding| && outstanding[i].id.step == step ==> outstanding[i].id.index < index
        invariant (Counted(Abstract(), index), events) == Run(UseNext(step), Counted(old(Abstract()), 0), calls[..index])
      {
        assert calls[..index + 1][..index] == calls[..index];
        RunLast(UseNext(step), Counted(old(Abstract()), 0), calls[..index + 1]);
        var id := ToolId(step, index);
        PushCall(id, Canonical(calls[index].name));
        events := events + [ToolUse(step, id, calls[index].name, calls[index].input)];
        index := index + 1;
      }
      assert calls[..index] == calls;
    }

    method ApplyPlannerResponse(step: int, row: Row) returns (events: seq<Event>)
      requires Valid() && step in processedSteps
      requires forall i :: 0 <= i < |outstanding| ==> outstanding[i].id.step != step
      modifies this
      ensures Valid()
      ensures (Abstract(), events) == PlannerRow(old(Abstract()), step, row)
    {
      var thinking := RowText(row.thinking);
      if thinking.Some? {
        if pendingReasoning != [] {
          pendingReasoning := pendingReasoning + "\n\n";
        }
        pendingReasoning := pendingReasoning + thinking.value;
      }
      assert pendingReasoning == AddReasoning(old(pendingReasoning), thinking);
      events := EmitToolUses(step, row.calls);
      var text := RowText(row.content);
      if text.None? {
        assert events + [] == events;
        return;
      }
      var reasoning := if pendingReasoning == [] then None else Some(pendingReasoning);
      pendingReasoning := "";
      visibleOutput := true;
      events := events + [AssistantDelta(step, text.value, reasoning)];
    }

    method PushCall(id: ToolId, name: string)
      requires Valid() && id.step in processedSteps
      requires id !in Ids(outstanding)
      modifies this
      ensures Valid()
      ensures Abstract() == old(Abstract()).(outstanding := old(outstanding) + [Call(id, name)], visible := true)
    {
      var queue := if name in pendingTools then pendingTools[name] else [];
      AgreeAfterPush(pendingTools, outstanding, Call(id, name));
      pendingTools := pendingTools[name := queue + [id]];
      anonymousPending := anonymousPending + [id];
      visibleOutput := true;
      outstanding := outstanding + [Call(id, name)];
    }

    method ApplyToolResult(step: int, row: Row) returns (events: seq<Event>)
      requires Valid()
      modifies this
      ensures Valid()
      ensures (Abstract(), events) == ResultRow(old(Abstract()), step, row)
    {
      var answer := PopToolIdForName(row.rowType);
      visibleOutput := true;
      events := [ToolResult(step, answer, row.rowType, row.raw, false)];
    }

    method ApplyErrorMessage(step: int, row: Row) returns (events: seq<Event>)
      requires Valid()
      modifies this
      ensures Valid()
      ensures (Abstract(), events) == ErrorRow(old(Abstract()), step, row)
    {
      var message := ErrorText(row);
      lastError := Some(message);
      events := [ErrorReport(step, message)];
      var answer := PopAnyToolId();
      if answer.Some? {
        assert RemoveAt(old(outstanding), 0) == old(outstanding)[1..];
        visibleOutput := true;
        events := events + [ToolResult(step, answer, row.rowType, message, true)];
        assert events == [ErrorReport(step, message), ToolResult(step, answer, row.rowType, message, true)];
      }
    }

    method ApplyRow(step: int, row: Row) returns (events: seq<Event>)
      requires Valid() && step in processedSteps
      requires forall i :: 0 <= i < |outstanding| ==> outstanding[i].id.step != step
      modifies this
      ensures Valid()
      ensures (Abstract(), events) == RowEffect(old(Abstract()), step, row)
    {
      if row.rowType == "PLANNER_RESPONSE" {
        events := ApplyPlannerResponse(step, row);
      } else if row.rowType == "ERROR_MESSAGE" {
        events := ApplyErrorMessage(step, row);
      } else if !SkipVisible(row.rowType) && row.content.Some? {
        events := ApplyToolResult(step, row);
      } else {
        events := [];
      }
    }

    /** One row, unless it has no step, or one at or below the baseline or decoded before. */
    method VisitRow(row: Row, baseline: int) returns (events: seq<Event>)
      requires Valid()
      modifies this
      ensures Valid()
      ensures (Abstract(), events) == Visit(old(Abstract()), row, baseline)
    {
      if row.step.None? || row.step.value <= baseline || row.step.value in processedSteps {
        return [];
      }
      processedSteps := processedSteps + {row.step.value};
      events := ApplyRow(row.step.value, row);
    }

    /** One read of the transcript: the two-index decoder emits what the one-list decoder does. */
    method ApplyRows(rows: seq<Row>, baseline: int) returns (events: seq<Event>)
      requires Valid()
      modifies this
      ensures Valid()
      ensures (Abstract(), events) == Apply(old(Abstract()), rows, baseline)
    {
      events := [];
      for i := 0 to |rows|
        invariant Valid()
        invariant (Abstract(), events) == Apply(old(Abstract()), rows[..i], baseline)
      {
        ApplyOneMore(old(Abstract()), rows, i, baseline);
        var emitted := VisitRow(rows[i], baseline);
        events := events + emitted;
      }
      assert rows[..|rows|] == rows;
    }
  }

  lemma ApplyOneMore(s: State, rows: seq<Row>, i: nat, baseline: int)
    requires i < |rows|
    ensures var (s1, e1) := Apply(s, rows[..i], baseline);
            var (s2, e2) := Visit(s1, rows[i], baseline);
            Apply(s, rows[..i + 1], baseline) == (s2, e1 + e2)
  {
    assert rows[..i + 1][..i] == rows[..i];
    RunLast(Visitor(baseline), s, rows[..i + 1]);
  }
}

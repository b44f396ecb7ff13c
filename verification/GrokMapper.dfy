/** The Grok ACP mapper (garyx-bridge/src/grok_provider.rs): one stream of protocol updates
    becomes both a stream of events and a ledger of messages. */
module GrokMapper {
  import opened Common
  import opened Text

  datatype Json =
    | Null
    | Bool(b: bool)
    | Int(n: int)
    | Float(text: string)
    | Str(s: string)
    | Arr(items: seq<Json>)
    | Obj(fields: seq<Field>)

  datatype Field = Field(key: string, value: Json)

  datatype ToolFields = ToolFields(id: Option<string>, rawInput: Json, title: Option<string>,
                                   metaName: Option<string>, kind: Option<string>, status: Option<string>)

  datatype Update =
    | MessageChunk(text: Option<string>)
    | ToolCall(f: ToolFields)
    | ToolCallUpdate(f: ToolFields)
    | Other

  datatype Event =
    | Delta(text: string)
    | ToolUse(id: string, name: Option<string>, title: Option<string>, input: Json)
    | ToolResult(id: string, name: Option<string>, isError: bool)

  /** A ledger row: an assistant segment, or the row of a tool event. */
  datatype Message = Assistant(text: string) | Tool(event: Event)

  datatype ToolState = ToolState(name: string, title: Option<string>, input: Json, started: bool, finished: bool)

  const NEW_TOOL := ToolState("", None, Null, false, false)

  function NormalizeNonEmpty(value: string): Option<string> {
    if Trim(value) == [] then None else Some(Trim(value))
  }

  function ToolId(f: ToolFields): Option<string> {
    if f.id.None? then None else NormalizeNonEmpty(f.id.value)
  }

  function Merge(t: ToolState, f: ToolFields): ToolState {
    var input := if f.rawInput.Null? then t.input else f.rawInput;
    var title := if f.title.Some? then NormalizeNonEmpty(f.title.value) else t.title;
    var named := if f.metaName.Some? then f.metaName.value else if f.kind.Some? then f.kind.value else t.name;
    var name := if named != [] then named else if title.Some? then title.value else "Grok tool";
    ToolState(name, title, input, t.started, t.finished)
  }

  predicate Terminal(f: ToolFields) {
    f.status == Some("completed") || f.status == Some("failed") || f.status == Some("cancelled")
  }

  predicate Failed(f: ToolFields) {
    f.status == Some("failed") || f.status == Some("cancelled")
  }

  datatype Mapper = Mapper(response: string, messages: seq<Message>, tools: map<string, ToolState>)

  const START := Mapper("", [], map[])

  function ToolOf(m: Mapper, id: string): ToolState {
    if id in m.tools then m.tools[id] else NEW_TOOL
  }

  function AppendAssistant(messages: seq<Message>, delta: string): seq<Message> {
    var n := |messages|;
    if n > 0 && messages[n - 1].Assistant? then messages[n - 1 := Assistant(messages[n - 1].text + delta)]
    else messages + [Assistant(delta)]
  }

  function EmitToolUse(m: Mapper, id: string): (Mapper, seq<Event>)
    requires id in m.tools
  {
    var t := m.tools[id];
    if t.started then (m, [])
    else
      var e := ToolUse(id, NormalizeNonEmpty(t.name), t.title, t.input);
      (m.(tools := m.tools[id := t.(started := true)], messages := m.messages + [Tool(e)]), [e])
  }

  function EmitToolResult(m: Mapper, id: string, f: ToolFields): (Mapper, seq<Event>)
    requires id in m.tools
  {
    var t := m.tools[id];
    if !Terminal(f) || t.finished then (m, [])
    else
      var e := ToolResult(id, NormalizeNonEmpty(t.name), Failed(f));
      (m.(tools := m.tools[id := t.(finished := true)], messages := m.messages + [Tool(e)]), [e])
  }

  function Merged(m: Mapper, id: string, f: ToolFields): Mapper {
    m.(tools := m.tools[id := Merge(ToolOf(m, id), f)])
  }

  function ApplyCall(m: Mapper, id: string, f: ToolFields): (Mapper, seq<Event>) {
    var m1 := Merged(m, id, f);
    if m1.tools[id].input.Null? then (m1, []) else EmitToolUse(m1, id)
  }

  function ApplyCallUpdate(m: Mapper, id: string, f: ToolFields): (Mapper, seq<Event>) {
    var m1 := Merged(m, id, f);
    var (m2, use) := if m1.tools[id].input.Null? && !Terminal(f) then (m1, []) else EmitToolUse(m1, id);
    var (m3, result) := EmitToolResult(m2, id, f);
    (m3, use + result)
  }

  function Apply(m: Mapper, u: Update): (Mapper, seq<Event>) {
    match u
    case MessageChunk(Some(text)) =>
      if text == [] then (m, [])
      else (m.(response := m.response + text, messages := AppendAssistant(m.messages, text)), [Delta(text)])
    case ToolCall(f) => if ToolId(f).None? then (m, []) else ApplyCall(m, ToolId(f).value, f)
    case ToolCallUpdate(f) => if ToolId(f).None? then (m, []) else ApplyCallUpdate(m, ToolId(f).value, f)
    case _ => (m, [])
  }

  function Applier(): (Mapper, Update) -> (Mapper, seq<Event>) {
    (m: Mapper, u: Update) => Apply(m, u)
  }

  class GrokEventMapper {
    var response: string
    var sessionMessages: seq<Message>
    var tools: map<string, ToolState>

    ghost function Abstract(): Mapper
      reads this
    {
      Mapper(response, sessionMessages, tools)
    }

    constructor ()
      ensures Abstract() == START
    {
      response, sessionMessages, tools := "", [], map[];
    }

    method AppendAssistantMessage(delta: string)
      modifies this`sessionMessages
      ensures sessionMessages == AppendAssistant(old(sessionMessages), delta)
    {
      var n := |sessionMessages|;
      if n > 0 && sessionMessages[n - 1].Assistant? {
        sessionMessages := sessionMessages[n - 1 := Assistant(sessionMessages[n - 1].text + delta)];
        return;
      }
      sessionMessages := sessionMessages + [Assistant(delta)];
    }

    method EmitUse(id: string) returns (events: seq<Event>)
      requires id in tools
      modifies this
      ensures (Abstract(), events) == EmitToolUse(old(Abstract()), id)
    {
      var t := tools[id];
      if t.started {
        return [];
      }
      tools := tools[id := t.(started := true)];
      var e := ToolUse(id, NormalizeNonEmpty(t.name), t.title, t.input);
      sessionMessages := sessionMessages + [Tool(e)];
      events := [e];
    }

    method ApplyToolCall(f: ToolFields) returns (events: seq<Event>)
      modifies this
      ensures (Abstract(), events) == Apply(old(Abstract()), ToolCall(f))
    {
      events := [];
      var id := ToolId(f);
      if id.None? {
        return;
      }
      tools := tools[id.value := Merge(if id.value in tools then tools[id.value] else NEW_TOOL, f)];
      if !tools[id.value].input.Null? {
        events := EmitUse(id.value);
      }
    }

    method ApplyToolUpdate(f: ToolFields) returns (events: seq<Event>)
      modifies this
      ensures (Abstract(), events) == Apply(old(Abstract()), ToolCallUpdate(f))
    {
      events := [];
      var id := ToolId(f);
      if id.None? {
        return;
      }
      tools := tools[id.value := Merge(if id.value in tools then tools[id.value] else NEW_TOOL, f)];
      if !tools[id.value].input.Null? || Terminal(f) {
        events := EmitUse(id.value);
      }
      var t := tools[id.value];
      if !Terminal(f) || t.finished {
        assert events + [] == events;
        return;
      }
      tools := tools[id.value := t.(finished := true)];
      var e := ToolResult(id.value, NormalizeNonEmpty(t.name), Failed(f));
      sessionMessages := sessionMessages + [Tool(e)];
      events := events + [e];
    }

    method ApplyUpdate(u: Update) returns (events: seq<Event>)
      modifies this
      ensures (Abstract(), events) == Apply(old(Abstract()), u)
    {
      events := [];
      match u
      case MessageChunk(Some(text)) =>
        if text != [] {
          response := response + text;
          AppendAssistantMessage(text);
          events := [Delta(text)];
        }
      case ToolCall(f) => events := ApplyToolCall(f);
      case ToolCallUpdate(f) => events := ApplyToolUpdate(f);
      case _ =>
    }
  }

  // ---- The ledger is the event stream with adjacent deltas merged ----

  function Record(messages: seq<Message>, e: Event): seq<Message> {
    if e.Delta? then AppendAssistant(messages, e.text) else messages + [Tool(e)]
  }

  function Ledger(events: seq<Event>): seq<Message> {
    if events == [] then [] else Record(Ledger(events[..|events| - 1]), events[|events| - 1])
  }

  function DeltaText(events: seq<Event>): string {
    if events == [] then []
    else DeltaText(events[..|events| - 1]) + (if events[|events| - 1].Delta? then events[|events| - 1].text else [])
  }

  function AssistantText(messages: seq<Message>): string {
    if messages == [] then []
    else
      var last := messages[|messages| - 1];
      AssistantText(messages[..|messages| - 1]) + (if last.Assistant? then last.text else [])
  }

  /** The ledger's tool rows, without the assistant segments. */
  function ToolRows(messages: seq<Message>): seq<Event> {
    if messages == [] then []
    else
      var last := messages[|messages| - 1];
      ToolRows(messages[..|messages| - 1]) + (if last.Tool? then [last.event] else [])
  }

  function ToolEvents(events: seq<Event>): seq<Event> {
    if events == [] then []
    else
      var last := events[|events| - 1];
      ToolEvents(events[..|events| - 1]) + (if last.Delta? then [] else [last])
  }

  ghost predicate Segmented(messages: seq<Message>) {
    forall i :: 0 < i < |messages| ==> !(messages[i - 1].Assistant? && messages[i].Assistant?)
  }

  lemma LedgerSnoc(events: seq<Event>, e: Event)
    ensures Ledger(events + [e]) == Record(Ledger(events), e)
    ensures DeltaText(events + [e]) == DeltaText(events) + (if e.Delta? then e.text else [])
    ensures ToolEvents(events + [e]) == ToolEvents(events) + (if e.Delta? then [] else [e])
  {
    assert (events + [e])[..|events|] == events;
  }

  lemma RecordKeeps(messages: seq<Message>, e: Event)
    requires Segmented(messages)
    ensures Segmented(Record(messages, e))
    ensures AssistantText(Record(messages, e)) == AssistantText(messages) + (if e.Delta? then e.text else [])
    ensures ToolRows(Record(messages, e)) == ToolRows(messages) + (if e.Delta? then [] else [e])
  {
    var n := |messages|;
    if e.Delta? && n > 0 && messages[n - 1].Assistant? {
      var merged := messages[n - 1 := Assistant(messages[n - 1].text + e.text)];
      assert merged[..n - 1] == messages[..n - 1];
      var before := AssistantText(messages[..n - 1]);
      assert before + (messages[n - 1].text + e.text) == (before + messages[n - 1].text) + e.text;
      assert ToolRows(messages) + [] == ToolRows(messages);
    } else {
      var row := if e.Delta? then Assistant(e.text) else Tool(e);
      assert (messages + [row])[..n] == messages;
    }
  }

  /** What the ledger of any event stream says: the assistant segments spell the deltas, the
      tool rows are the tool events, and no two assistant segments are adjacent. */
  lemma {:induction false} LedgerSaysTheEvents(events: seq<Event>)
    ensures var messages := Ledger(events);
            AssistantText(messages) == DeltaText(events) && ToolRows(messages) == ToolEvents(events) && Segmented(messages)
  {
    if events != [] {
      var before, e := events[..|events| - 1], events[|events| - 1];
      LedgerSaysTheEvents(before);
      RecordKeeps(Ledger(before), e);
    }
  }

  // ---- One use and one result per tool, the use first ----

  ghost predicate Uses(events: seq<Event>, id: string) {
    exists i :: 0 <= i < |events| && events[i].ToolUse? && events[i].id == id
  }

  ghost predicate Results(events: seq<Event>, id: string) {
    exists i :: 0 <= i < |events| && events[i].ToolResult? && events[i].id == id
  }

  ghost predicate MayFollow(events: seq<Event>, e: Event) {
    match e
    case Delta(_) => true
    case ToolUse(id, _, _, _) => !Uses(events, id)
    case ToolResult(id, _, _) => Uses(events, id) && !Results(events, id)
  }

  ghost predicate Ordered(events: seq<Event>) {
    events == [] || (Ordered(events[..|events| - 1]) && MayFollow(events[..|events| - 1], events[|events| - 1]))
  }

  lemma {:induction false} OrderedMeans(events: seq<Event>, i: nat, j: nat)
    requires Ordered(events) && i < j < |events|
    ensures events[i].ToolUse? && events[j].ToolUse? ==> events[i].id != events[j].id
    ensures events[i].ToolResult? && events[j].ToolResult? ==> events[i].id != events[j].id
    ensures events[i].ToolResult? && events[j].ToolUse? ==> events[i].id != events[j].id
    ensures events[j].ToolResult? ==> Uses(events[..j], events[j].id)
  {
    var before := events[..|events| - 1];
    if j == |before| {
      assert before[i] == events[i] && events[..j] == before;
      if events[i].ToolResult? {
        UseComesFirst(before, i);
      }
    } else {
      OrderedMeans(before, i, j);
      assert before[..j] == events[..j];
    }
  }

  lemma {:induction false} UseComesFirst(events: seq<Event>, i: nat)
    requires Ordered(events) && i < |events| && events[i].ToolResult?
    ensures Uses(events, events[i].id)
  {
    var before := events[..|events| - 1];
    if i < |before| {
      UseComesFirst(before, i);
      assert before[i] == events[i];
    }
    var k :| 0 <= k < |before| && before[k].ToolUse? && before[k].id == events[i].id;
    assert events[k] == before[k];
  }

  /** The mapper that has emitted exactly `events`. */
  ghost predicate Tracks(m: Mapper, events: seq<Event>) {
    && m.messages == Ledger(events)
    && m.response == DeltaText(events)
    && Ordered(events)
    && (forall id :: Flagged(m, events, id))
  }

  ghost predicate Flagged(m: Mapper, events: seq<Event>, id: string) {
    (ToolOf(m, id).started <==> Uses(events, id)) && (ToolOf(m, id).finished <==> Results(events, id))
  }

  lemma Appended(events: seq<Event>, e: Event, id: string)
    ensures Uses(events + [e], id) <==> Uses(events, id) || (e.ToolUse? && e.id == id)
    ensures Results(events + [e], id) <==> Results(events, id) || (e.ToolResult? && e.id == id)
  {
    var longer := events + [e];
    assert longer[|events|] == e && forall i :: 0 <= i < |events| ==> longer[i] == events[i];
  }

  lemma Follow(events: seq<Event>, e: Event)
    requires Ordered(events) && MayFollow(events, e)
    ensures Ordered(events + [e])
  {
    assert (events + [e])[..|events|] == events;
  }

  lemma MergedTracks(m: Mapper, events: seq<Event>, id: string, f: ToolFields)
    requires Tracks(m, events)
    ensures Tracks(Merged(m, id, f), events)
  {
    forall other
      ensures Flagged(Merged(m, id, f), events, other)
    {
      assert Flagged(m, events, other);
    }
  }

  lemma ToolEventTracks(m: Mapper, events: seq<Event>, id: string, e: Event, t: ToolState)
    requires Tracks(m, events) && !e.Delta? && e.id == id && MayFollow(events, e)
    requires t.started == (ToolOf(m, id).started || e.ToolUse?) && t.finished == (ToolOf(m, id).finished || e.ToolResult?)
    ensures Tracks(m.(tools := m.tools[id := t], messages := m.messages + [Tool(e)]), events + [e])
  {
    var m1 := m.(tools := m.tools[id := t], messages := m.messages + [Tool(e)]);
    LedgerSnoc(events, e);
    Follow(events, e);
    assert DeltaText(events) + [] == DeltaText(events);
    forall other
      ensures Flagged(m1, events + [e], other)
    {
      Appended(events, e, other);
      assert Flagged(m, events, other);
    }
  }

  lemma UseTracks(m: Mapper, events: seq<Event>, id: string)
    requires Tracks(m, events) && id in m.tools
    ensures var (m1, use) := EmitToolUse(m, id); Tracks(m1, events + use)
  {
    assert events + [] == events;
    var t := m.tools[id];
    assert Flagged(m, events, id);
    if !t.started {
      ToolEventTracks(m, events, id, ToolUse(id, NormalizeNonEmpty(t.name), t.title, t.input), t.(started := true));
    }
  }

  lemma ResultTracks(m: Mapper, events: seq<Event>, id: string, f: ToolFields)
    requires Tracks(m, events) && id in m.tools && (Terminal(f) ==> m.tools[id].started)
    ensures var (m1, result) := EmitToolResult(m, id, f); Tracks(m1, events + result)
  {
    assert events + [] == events;
    var t := m.tools[id];
    assert Flagged(m, events, id);
    if Terminal(f) && !t.finished {
      ToolEventTracks(m, events, id, ToolResult(id, NormalizeNonEmpty(t.name), Failed(f)), t.(finished := true));
    }
  }

  lemma CallUpdateTracks(m: Mapper, events: seq<Event>, id: string, f: ToolFields)
    requires Tracks(m, events)
    ensures var (m1, emitted) := ApplyCallUpdate(m, id, f); Tracks(m1, events + emitted)
  {
    var m1 := Merged(m, id, f);
    MergedTracks(m, events, id, f);
    var (m2, use) := if m1.tools[id].input.Null? && !Terminal(f) then (m1, []) else EmitToolUse(m1, id);
    assert events + [] == events;
    UseTracks(m1, events, id);
    ResultTracks(m2, events + use, id, f);
    var result := EmitToolResult(m2, id, f).1;
    assert events + use + result == events + (use + result);
  }

  lemma DeltaTracks(m: Mapper, events: seq<Event>, text: string)
    requires Tracks(m, events)
    ensures Tracks(m.(response := m.response + text, messages := AppendAssistant(m.messages, text)), events + [Delta(text)])
  {
    var m1 := m.(response := m.response + text, messages := AppendAssistant(m.messages, text));
    LedgerSnoc(events, Delta(text));
    Follow(events, Delta(text));
    forall id
      ensures Flagged(m1, events + [Delta(text)], id)
    {
      Appended(events, Delta(text), id);
      assert Flagged(m, events, id);
    }
  }

  lemma ApplyTracks(m: Mapper, events: seq<Event>, u: Update)
    requires Tracks(m, events)
    ensures var (m1, emitted) := Apply(m, u); Tracks(m1, events + emitted)
  {
    assert events + [] == events;
    match u
    case MessageChunk(Some(text)) =>
      if text != [] {
        DeltaTracks(m, events, text);
      }
    case ToolCall(f) =>
      if ToolId(f).Some? {
        MergedTracks(m, events, ToolId(f).value, f);
        UseTracks(Merged(m, ToolId(f).value, f), events, ToolId(f).value);
      }
    case ToolCallUpdate(f) =>
      if ToolId(f).Some? {
        CallUpdateTracks(m, events, ToolId(f).value, f);
      }
    case _ =>
  }

  lemma EveryRunTracks(updates: seq<Update>)
    ensures var (m, events) := Run(Applier(), START, updates); Tracks(m, events)
  {
    var inv := (m: Mapper, events: seq<Event>) => Tracks(m, events);
    forall m, events, u | inv(m, events)
      ensures inv(Applier()(m, u).0, events + Applier()(m, u).1)
    {
      ApplyTracks(m, events, u);
    }
    RunKeeps(Applier(), inv, START, [], updates);
    var events := Run(Applier(), START, updates).1;
    assert [] + events == events;
  }

  /** The texts of the message chunks that are not empty, in order. */
  function Chunks(updates: seq<Update>): seq<Event> {
    if updates == [] then []
    else
      var u := updates[|updates| - 1];
      Chunks(updates[..|updates| - 1])
      + (if u.MessageChunk? && u.text.Some? && u.text.value != [] then [Delta(u.text.value)] else [])
  }

  /** The deltas among the events. */
  function Deltas(events: seq<Event>): seq<Event> {
    if events == [] then []
    else if events[|events| - 1].Delta? then Deltas(events[..|events| - 1]) + [events[|events| - 1]]
    else Deltas(events[..|events| - 1])
  }

  lemma {:induction false} DeltasAppend(a: seq<Event>, b: seq<Event>)
    ensures Deltas(a + b) == Deltas(a) + Deltas(b)
  {
    if b == [] {
      assert a + b == a && Deltas(a) + [] == Deltas(a);
    } else {
      var n := |b| - 1;
      var front := a + b[..n];
      assert (a + b)[..|a| + n] == front && (a + b)[|a| + n] == b[n];
      DeltasAppend(a, b[..n]);
      assert Deltas(a) + (Deltas(b[..n]) + [b[n]]) == Deltas(front) + [b[n]];
    }
  }

  lemma OneEventDeltas(e: Event)
    ensures Deltas([e]) == if e.Delta? then [e] else []
  {
    assert [e][..0] == [] && Deltas([]) == [];
  }

  lemma UseIsNoDelta(m: Mapper, id: string)
    requires id in m.tools
    ensures Deltas(EmitToolUse(m, id).1) == []
  {
    var t := m.tools[id];
    OneEventDeltas(ToolUse(id, NormalizeNonEmpty(t.name), t.title, t.input));
  }

  lemma CallUpdateHasNoDelta(m: Mapper, id: string, f: ToolFields)
    ensures Deltas(ApplyCallUpdate(m, id, f).1) == []
  {
    var m1 := Merged(m, id, f);
    var (m2, use) := if m1.tools[id].input.Null? && !Terminal(f) then (m1, []) else EmitToolUse(m1, id);
    UseIsNoDelta(m1, id);
    OneEventDeltas(ToolResult(id, NormalizeNonEmpty(m2.tools[id].name), Failed(f)));
    DeltasAppend(use, EmitToolResult(m2, id, f).1);
  }

  lemma UpdateDeltas(m: Mapper, u: Update)
    ensures Deltas(Apply(m, u).1)
         == if u.MessageChunk? && u.text.Some? && u.text.value != [] then [Delta(u.text.value)] else []
  {
    match u
    case MessageChunk(Some(text)) => OneEventDeltas(Delta(text));
    case ToolCall(f) => if ToolId(f).Some? { UseIsNoDelta(Merged(m, ToolId(f).value, f), ToolId(f).value); }
    case ToolCallUpdate(f) => if ToolId(f).Some? { CallUpdateHasNoDelta(m, ToolId(f).value, f); }
    case _ =>
  }

  /** Every text the agent sends becomes one delta, in order, and there are no others. */
  lemma {:induction false} EveryChunkIsADelta(updates: seq<Update>)
    ensures Deltas(Run(Applier(), START, updates).1) == Chunks(updates)
  {
    if updates != [] {
      var before, u := updates[..|updates| - 1], updates[|updates| - 1];
      EveryChunkIsADelta(before);
      RunLast(Applier(), START, updates);
      var (m, events) := Run(Applier(), START, before);
      UpdateDeltas(m, u);
      DeltasAppend(events, Apply(m, u).1);
    }
  }

  /** Over any updates: the ledger is the event stream with adjacent deltas merged, the
      response is the deltas in order and spells the same text as the assistant segments, no
      two of which are adjacent, and every tool has at most one use and one result, the use
      first. */
  lemma OneStreamTwoRecords(updates: seq<Update>)
    ensures var (m, events) := Run(Applier(), START, updates);
            && m.messages == Ledger(events) && Segmented(m.messages)
            && m.response == DeltaText(events) == AssistantText(m.messages)
            && ToolRows(m.messages) == ToolEvents(events)
            && Ordered(events)
  {
    EveryRunTracks(updates);
    LedgerSaysTheEvents(Run(Applier(), START, updates).1);
  }

  // ---- The single use row carries the authoritative input ----

  /** A tool update with this id, white space around it aside. */
  predicate About(u: Update, id: string) {
    (u.ToolCall? || u.ToolCallUpdate?) && u.f.id.Some? && Trim(u.f.id.value) == id && id != []
  }

  /** The last input any update gave for a tool, or null. */
  function LastInput(updates: seq<Update>, id: string): Json {
    if updates == [] then Null
    else
      var u := updates[|updates| - 1];
      if About(u, id) && !u.f.rawInput.Null? then u.f.rawInput else LastInput(updates[..|updates| - 1], id)
  }

  lemma {:induction false} InputIsLast(updates: seq<Update>, id: string)
    ensures ToolOf(Run(Applier(), START, updates).0, id).input == LastInput(updates, id)
  {
    if updates != [] {
      var before, u := updates[..|updates| - 1], updates[|updates| - 1];
      InputIsLast(before, id);
      RunLast(Applier(), START, updates);
      ApplyInput(Run(Applier(), START, before).0, u, id);
    }
  }

  lemma ApplyInput(m: Mapper, u: Update, id: string)
    ensures ToolOf(Apply(m, u).0, id).input ==
            if About(u, id) && !u.f.rawInput.Null? then u.f.rawInput else ToolOf(m, id).input
  {
  }

  /** A use is emitted by an update about its tool and carries the last input given so far. It
      waits for an input: it goes out with none only when the tool ends without ever getting
      one. */
  lemma UseCarriesTheInput(updates: seq<Update>, u: Update, k: nat)
    requires var (m, _) := Run(Applier(), START, updates);
             k < |Apply(m, u).1| && Apply(m, u).1[k].ToolUse?
    ensures var use := Apply(Run(Applier(), START, updates).0, u).1[k];
            && About(u, use.id)
            && use.input == LastInput(updates + [u], use.id)
            && (use.input.Null? ==> u.ToolCallUpdate? && Terminal(u.f))
  {
    var m := Run(Applier(), START, updates).0;
    assert (updates + [u])[..|updates|] == updates;
    UseOfUpdate(m, u, k);
    InputIsLast(updates, Apply(m, u).1[k].id);
  }

  lemma UseOfUpdate(m: Mapper, u: Update, k: nat)
    requires k < |Apply(m, u).1| && Apply(m, u).1[k].ToolUse?
    ensures var use := Apply(m, u).1[k];
            && About(u, use.id)
            && use.input == Merge(ToolOf(m, use.id), u.f).input
            && (use.input.Null? ==> u.ToolCallUpdate? && Terminal(u.f))
  {
    if u.ToolCallUpdate? {
      var id := ToolId(u.f).value;
      var m1 := Merged(m, id, u.f);
      var (m2, use) := if m1.tools[id].input.Null? && !Terminal(u.f) then (m1, []) else EmitToolUse(m1, id);
      assert Apply(m, u).1 == use + EmitToolResult(m2, id, u.f).1;
    }
  }

  // ---- Names and titles ----

  /** Where the mapper stands after these updates. */
  function ToolAfter(updates: seq<Update>, id: string): ToolState {
    ToolOf(Run(Applier(), START, updates).0, id)
  }

  lemma ToolMerges(m: Mapper, u: Update, id: string)
    ensures var t, after := ToolOf(m, id), ToolOf(Apply(m, u).0, id);
            && (!About(u, id) ==> after == t)
            && (About(u, id) ==> after.name == Merge(t, u.f).name && after.title == Merge(t, u.f).title)
  {
  }

  lemma OneUpdateMore(updates: seq<Update>, id: string)
    requires updates != []
    ensures var u, t := updates[|updates| - 1], ToolAfter(updates[..|updates| - 1], id);
            && (!About(u, id) ==> ToolAfter(updates, id) == t)
            && (About(u, id) ==> ToolAfter(updates, id).name == Merge(t, u.f).name
                                 && ToolAfter(updates, id).title == Merge(t, u.f).title)
  {
    RunLast(Applier(), START, updates);
    ToolMerges(Run(Applier(), START, updates[..|updates| - 1]).0, updates[|updates| - 1], id);
  }

  /** A tool's title is the last one given, trimmed, or none when that is blank. */
  lemma {:induction false} TitleIsTheLastGiven(updates: seq<Update>, id: string, i: nat)
    requires i < |updates| && About(updates[i], id) && updates[i].f.title.Some?
    requires forall j :: i < j < |updates| && About(updates[j], id) ==> updates[j].f.title.None?
    ensures ToolAfter(updates, id).title == NormalizeNonEmpty(updates[i].f.title.value)
  {
    OneUpdateMore(updates, id);
    if i < |updates| - 1 {
      TitleIsTheLastGiven(updates[..|updates| - 1], id, i);
    }
  }

  lemma {:induction false} TitleNeverGiven(updates: seq<Update>, id: string)
    requires forall j :: 0 <= j < |updates| && About(updates[j], id) ==> updates[j].f.title.None?
    ensures ToolAfter(updates, id).title.None?
  {
    if updates != [] {
      OneUpdateMore(updates, id);
      TitleNeverGiven(updates[..|updates| - 1], id);
    }
  }

  lemma {:induction false} TitlesAreNotEmpty(updates: seq<Update>, id: string)
    ensures ToolAfter(updates, id).title.Some? ==> ToolAfter(updates, id).title.value != []
  {
    if updates != [] {
      OneUpdateMore(updates, id);
      TitlesAreNotEmpty(updates[..|updates| - 1], id);
    }
  }

  /** The update names its tool: by the name in its metadata, else by its kind. */
  predicate Names(u: Update, id: string, name: string) {
    About(u, id) && (u.f.metaName == Some(name) || (u.f.metaName.None? && u.f.kind == Some(name)))
  }

  predicate NamesNothing(u: Update, id: string) {
    About(u, id) ==> u.f.metaName.None? && u.f.kind.None?
  }

  /** A tool without a name goes by its title. */
  function Unnamed(title: Option<string>): string {
    if title.Some? then title.value else "Grok tool"
  }

  /** A tool goes by the last name given. An empty name stands for the title it has at that moment. */
  lemma {:induction false} NameIsTheLastGiven(updates: seq<Update>, id: string, i: nat, name: string)
    requires i < |updates| && Names(updates[i], id, name)
    requires forall j :: i < j < |updates| ==> NamesNothing(updates[j], id)
    ensures ToolAfter(updates, id).name
         == (if name != [] then name else Unnamed(ToolAfter(updates[..i + 1], id).title)) != []
  {
    var n := |updates| - 1;
    OneUpdateMore(updates, id);
    TitlesAreNotEmpty(updates[..i + 1], id);
    if i < n {
      NameIsTheLastGiven(updates[..n], id, i, name);
      assert updates[..n][..i + 1] == updates[..i + 1];
      assert NamesNothing(updates[n], id);
    } else {
      assert updates[..i + 1] == updates;
    }
  }

  /** A tool that is never named goes by the title of the first update about it. */
  lemma {:induction false} NameNeverGiven(updates: seq<Update>, id: string, i: nat)
    requires i < |updates| && About(updates[i], id) && forall j :: 0 <= j < i ==> !About(updates[j], id)
    requires forall j :: i <= j < |updates| ==> NamesNothing(updates[j], id)
    ensures ToolAfter(updates, id).name == Unnamed(ToolAfter(updates[..i + 1], id).title) != []
  {
    var n := |updates| - 1;
    OneUpdateMore(updates, id);
    TitlesAreNotEmpty(updates[..i + 1], id);
    assert NamesNothing(updates[n], id);
    if i < n {
      NameNeverGiven(updates[..n], id, i);
      assert updates[..n][..i + 1] == updates[..i + 1];
    } else {
      NotHeardOf(updates[..n], id);
      assert updates[..i + 1] == updates;
    }
  }

  lemma {:induction false} NotHeardOf(updates: seq<Update>, id: string)
    requires forall j :: 0 <= j < |updates| ==> !About(updates[j], id)
    ensures ToolAfter(updates, id) == NEW_TOOL
  {
    if updates != [] {
      OneUpdateMore(updates, id);
      NotHeardOf(updates[..|updates| - 1], id);
    }
  }

  /** The row carries what the tool is called. */
  ghost predicate Carries(e: Event, u: Update, t: ToolState) {
    && (e.ToolUse? ==> About(u, e.id) && e.name == NormalizeNonEmpty(t.name) && e.title == t.title)
    && (e.ToolResult? ==> About(u, e.id) && e.name == NormalizeNonEmpty(t.name))
  }

  lemma RowsOfUpdate(m: Mapper, u: Update, k: nat)
    requires k < |Apply(m, u).1|
    ensures var e := Apply(m, u).1[k]; !e.Delta? ==> Carries(e, u, ToolOf(Apply(m, u).0, e.id))
  {
    if u.ToolCallUpdate? && ToolId(u.f).Some? {
      var id := ToolId(u.f).value;
      var m1 := Merged(m, id, u.f);
      var (m2, use) := if m1.tools[id].input.Null? && !Terminal(u.f) then (m1, []) else EmitToolUse(m1, id);
      assert Apply(m, u).1 == use + EmitToolResult(m2, id, u.f).1;
    }
  }

  /** Both rows of a tool carry the name it goes by when they are emitted, and its use the title. */
  lemma RowsCarryNameAndTitle(updates: seq<Update>, u: Update, k: nat)
    requires k < |Apply(Run(Applier(), START, updates).0, u).1|
    ensures var e := Apply(Run(Applier(), START, updates).0, u).1[k];
            !e.Delta? ==> Carries(e, u, ToolAfter(updates + [u], e.id))
  {
    assert (updates + [u])[..|updates|] == updates;
    RunLast(Applier(), START, updates + [u]);
    RowsOfUpdate(Run(Applier(), START, updates).0, u, k);
  }

  // ---- Which tools have rows, and how a result ends ----

  /** An update that ends its tool. */
  predicate Ends(u: Update, id: string) {
    u.ToolCallUpdate? && About(u, id)
    && (u.f.status == Some("completed") || u.f.status == Some("failed") || u.f.status == Some("cancelled"))
  }

  predicate SomeEnds(updates: seq<Update>, id: string) {
    updates != [] && (Ends(updates[|updates| - 1], id) || SomeEnds(updates[..|updates| - 1], id))
  }

  /** Some update gave the tool an input. */
  predicate SomeInput(updates: seq<Update>, id: string) {
    !LastInput(updates, id).Null?
  }

  lemma UseSets(m: Mapper, x: string, id: string)
    requires x in m.tools
    ensures x in EmitToolUse(m, x).0.tools
    ensures ToolOf(EmitToolUse(m, x).0, id) == if id == x then m.tools[x].(started := true) else ToolOf(m, id)
  {
  }

  lemma ResultSets(m: Mapper, x: string, f: ToolFields, id: string)
    requires x in m.tools
    ensures ToolOf(EmitToolResult(m, x, f).0, id)
         == if id == x && Terminal(f) then m.tools[x].(finished := true) else ToolOf(m, id)
  {
  }

  lemma CallFlags(m: Mapper, x: string, f: ToolFields, id: string)
    requires !ToolOf(m, id).input.Null? ==> ToolOf(m, id).started
    ensures var t, after := ToolOf(m, id), ToolOf(ApplyCall(m, x, f).0, id);
            (after.started <==> t.started || !after.input.Null?) && after.finished == t.finished
  {
    UseSets(Merged(m, x, f), x, id);
  }

  lemma CallUpdateFlags(m: Mapper, x: string, f: ToolFields, id: string)
    requires !ToolOf(m, id).input.Null? ==> ToolOf(m, id).started
    ensures var t, after := ToolOf(m, id), ToolOf(ApplyCallUpdate(m, x, f).0, id);
            && (after.started <==> t.started || !after.input.Null? || (id == x && Terminal(f)))
            && (after.finished <==> t.finished || (id == x && Terminal(f)))
  {
    var m1 := Merged(m, x, f);
    var m2 := if m1.tools[x].input.Null? && !Terminal(f) then m1 else EmitToolUse(m1, x).0;
    UseSets(m1, x, id);
    ResultSets(m2, x, f, id);
  }

  lemma ApplyFlags(m: Mapper, u: Update, id: string)
    requires !ToolOf(m, id).input.Null? ==> ToolOf(m, id).started
    ensures var t, after := ToolOf(m, id), ToolOf(Apply(m, u).0, id);
            && (after.started <==> t.started || !after.input.Null? || Ends(u, id))
            && (after.finished <==> t.finished || Ends(u, id))
  {
    match u
    case ToolCall(f) => if ToolId(f).Some? { CallFlags(m, ToolId(f).value, f, id); }
    case ToolCallUpdate(f) => if ToolId(f).Some? { CallUpdateFlags(m, ToolId(f).value, f, id); }
    case _ =>
  }

  lemma {:induction false} FlagsAreReported(updates: seq<Update>, id: string)
    ensures var t := ToolOf(Run(Applier(), START, updates).0, id);
            && (t.started <==> SomeInput(updates, id) || SomeEnds(updates, id))
            && (t.finished <==> SomeEnds(updates, id))
  {
    InputIsLast(updates, id);
    if updates != [] {
      var before, u := updates[..|updates| - 1], updates[|updates| - 1];
      FlagsAreReported(before, id);
      InputIsLast(before, id);
      RunLast(Applier(), START, updates);
      ApplyFlags(Run(Applier(), START, before).0, u, id);
    }
  }

  /** No tool is forgotten and none invented: it has a use exactly when some update gave it an
      input or ended it, and a result exactly when some update ended it. */
  lemma EveryToolIsReported(updates: seq<Update>, id: string)
    ensures var events := Run(Applier(), START, updates).1;
            && (Uses(events, id) <==> SomeInput(updates, id) || SomeEnds(updates, id))
            && (Results(events, id) <==> SomeEnds(updates, id))
  {
    EveryRunTracks(updates);
    FlagsAreReported(updates, id);
    var (m, events) := Run(Applier(), START, updates);
    assert Flagged(m, events, id);
  }

  /** A result goes out with the first update that ends its tool, and is an error exactly when
      that one does not say `completed`. */
  lemma ResultSaysHowItEnded(updates: seq<Update>, u: Update, k: nat)
    requires var (m, _) := Run(Applier(), START, updates);
             k < |Apply(m, u).1| && Apply(m, u).1[k].ToolResult?
    ensures var result := Apply(Run(Applier(), START, updates).0, u).1[k];
            && Ends(u, result.id) && !SomeEnds(updates, result.id)
            && (result.isError <==> u.f.status != Some("completed"))
  {
    var m := Run(Applier(), START, updates).0;
    ResultOfUpdate(m, u, k);
    FlagsAreReported(updates, Apply(m, u).1[k].id);
  }

  lemma ResultOfUpdate(m: Mapper, u: Update, k: nat)
    requires k < |Apply(m, u).1| && Apply(m, u).1[k].ToolResult?
    ensures var result := Apply(m, u).1[k];
            && Ends(u, result.id) && !ToolOf(m, result.id).finished
            && (result.isError <==> u.f.status != Some("completed"))
  {
    if u.ToolCallUpdate? {
      var id := ToolId(u.f).value;
      var m1 := Merged(m, id, u.f);
      var (m2, use) := if m1.tools[id].input.Null? && !Terminal(u.f) then (m1, []) else EmitToolUse(m1, id);
      assert Apply(m, u).1 == use + EmitToolResult(m2, id, u.f).1;
    }
  }

  // ---- Cleaning a tool result ----

  predicate NumericBytes(v: Json) {
    v.Arr? && forall i :: 0 <= i < |v.items| ==> v.items[i].Int? && 0 <= v.items[i].n <= 255
  }

  predicate Dropped(f: Field) {
    f.key == "_meta" || (f.key == "output" && NumericBytes(f.value))
  }

  /** Every `_meta` field and every raw byte output is removed, at every depth. */
  function Clean(v: Json): Json {
    match v
    case Arr(items) => Arr(CleanItems(items))
    case Obj(fields) => Obj(CleanFields(fields))
    case _ => v
  }

  function CleanItems(items: seq<Json>): (r: seq<Json>)
    ensures |r| == |items|
  {
    if items == [] then [] else [Clean(items[0])] + CleanItems(items[1..])
  }

  function CleanFields(fields: seq<Field>): seq<Field> {
    if fields == [] then []
    else
      (if Dropped(fields[0]) then [] else [Field(fields[0].key, Clean(fields[0].value))]) + CleanFields(fields[1..])
  }

  /** Not a list, or a list with something in it that is no byte. */
  predicate NoBytes(v: Json) {
    v.Arr? ==> exists i :: 0 <= i < |v.items| && (!v.items[i].Int? || v.items[i].n < 0 || v.items[i].n > 255)
  }

  /** Nothing to remove at any depth. */
  predicate Tidy(v: Json) {
    match v
    case Arr(items) => forall i :: 0 <= i < |items| ==> Tidy(items[i])
    case Obj(fields) =>
      forall i :: 0 <= i < |fields| ==>
        fields[i].key != "_meta" && (fields[i].key == "output" ==> NoBytes(fields[i].value)) && Tidy(fields[i].value)
    case _ => true
  }

  lemma {:induction false} CleanKeepsBytes(v: Json)
    ensures NumericBytes(Clean(v)) == NumericBytes(v)
  {
    if v.Arr? {
      forall i | 0 <= i < |v.items|
        ensures CleanItems(v.items)[i] == Clean(v.items[i])
      {
        CleanItemsAt(v.items, i);
      }
    }
  }

  lemma {:induction false} CleanItemsAt(items: seq<Json>, i: nat)
    requires i < |items|
    ensures CleanItems(items)[i] == Clean(items[i])
  {
    if i > 0 {
      CleanItemsAt(items[1..], i - 1);
    }
  }

  /** Cleaning leaves nothing to remove. */
  lemma {:induction false} CleanIsTidy(v: Json)
    ensures Tidy(Clean(v))
  {
    match v
    case Arr(items) =>
      forall i | 0 <= i < |items|
        ensures Tidy(CleanItems(items)[i])
      {
        CleanItemsAt(items, i);
        CleanIsTidy(items[i]);
      }
    case Obj(fields) => CleanFieldsTidy(fields);
    case _ =>
  }

  lemma {:induction false} CleanFieldsTidy(fields: seq<Field>)
    ensures forall i :: 0 <= i < |CleanFields(fields)| ==>
              !Dropped(CleanFields(fields)[i]) && Tidy(CleanFields(fields)[i].value)
  {
    if fields != [] {
      CleanFieldsTidy(fields[1..]);
      CleanIsTidy(fields[0].value);
      CleanKeepsBytes(fields[0].value);
    }
  }

  /** How many fields an object keeps. */
  function KeptCount(fields: seq<Field>): nat {
    if fields == [] then 0 else (if Dropped(fields[0]) then 0 else 1) + KeptCount(fields[1..])
  }

  /** And it removes nothing else: of an object exactly the fields that are not to be dropped
      survive, each once, under its key and with its value cleaned. */
  lemma {:induction false} CleanKeepsTheRest(fields: seq<Field>, f: Field)
    ensures |CleanFields(fields)| == KeptCount(fields)
    ensures f in CleanFields(fields) <==>
            exists i :: 0 <= i < |fields| && !Dropped(fields[i]) && f == Field(fields[i].key, Clean(fields[i].value))
  {
    if fields != [] {
      CleanKeepsTheRest(fields[1..], f);
      assert forall i :: 1 <= i < |fields| ==> fields[i] == fields[1..][i - 1];
    }
  }

  /** Exactly the tidy values are left as they are. So cleaning twice is cleaning once. */
  lemma {:induction false} TidyIsFixed(v: Json)
    ensures Tidy(v) <==> Clean(v) == v
  {
    CleanIsTidy(v);
    if Tidy(v) {
      match v
      case Arr(items) => TidyItemsFixed(items);
      case Obj(fields) => TidyFieldsFixed(fields);
      case _ =>
    }
  }

  lemma {:induction false} TidyItemsFixed(items: seq<Json>)
    requires forall i :: 0 <= i < |items| ==> Tidy(items[i])
    ensures CleanItems(items) == items
  {
    if items != [] {
      TidyIsFixed(items[0]);
      TidyItemsFixed(items[1..]);
    }
  }

  lemma {:induction false} TidyFieldsFixed(fields: seq<Field>)
    requires forall i :: 0 <= i < |fields| ==> !Dropped(fields[i]) && Tidy(fields[i].value)
    ensures CleanFields(fields) == fields
  {
    if fields != [] {
      TidyIsFixed(fields[0].value);
      TidyFieldsFixed(fields[1..]);
    }
  }
}

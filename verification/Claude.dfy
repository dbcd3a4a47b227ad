/**
 The Claude parser: one batch of records, with the subagents it sees started and completed.

 A line decodes to a `Record`; JSON decoding and time parsing are the parameter `decode`.  Go map
 iteration picks one of several subagents that name the same parent: what it picked is the `lookup`
 of a `Line`, and any choice `LookupOk` allows is covered.
 */
module Claude {
  import opened Wrappers
  import opened Session
  import opened Reader

  /******* Records *******/

  datatype TokenUsage = TokenUsage(input: int, cacheRead: int, cacheCreation: int, output: int) {
    function Context(): int {
      input + cacheRead + cacheCreation
    }
  }

  datatype Block = Block(kind: string, name: string, toolUseID: string)

  datatype Message = Message(role: string, model: string, content: seq<Block>,
    stopReason: string, usage: Option<TokenUsage>)

  // The nested message of a progress record; `inner` is None when it is absent or does not decode.
  datatype ProgressBody = ProgressBody(kind: string, inner: Option<Message>)

  // The data of a progress record: its type and its body, each None when it does not decode.
  datatype ProgressData = NoData | Data(header: Option<string>, body: Option<ProgressBody>)

  // `timestamp` is None when it is absent or does not parse.
  datatype Record =
    | Malformed
    | Record(kind: string, sessionID: string, timestamp: Option<Time>, cwd: string, gitBranch: string, slug: string,
             message: Option<Message>, toolUseID: string, parentToolUseID: string, data: ProgressData)

  type Decode = Bytes -> Record

  function RecordOf(decode: Decode, line: Bytes): Record {
    if line == [] then Malformed else decode(line)
  }

  /******* A batch *******/

  datatype Subagent = Subagent(
    id: string, parent: string, slug: string, model: string, contextTokens: int, outputTokens: int,
    toolCalls: int, msgCount: int, currentTool: string, activity: Activity,
    firstTime: Time, lastTime: Time, completed: bool, completedAt: Time)

  datatype Meta = Meta(
    sessionID: string, slug: string, model: string, cwd: string, branch: string,
    contextTokens: int, outputTokens: int, currentTool: string,
    activity: Activity, startedAt: Time, lastActivityAt: Time)

  datatype Counts = Counts(msgs: int, tools: int, compactions: int)

  // Subagents are keyed by tool-use ID; `parents` maps a parent tool-use ID to the subagent's.
  datatype Batch = Batch(meta: Meta, counts: Counts, hasData: bool,
    subs: map<string, Subagent>, parents: map<string, string>)

  type Lookup = map<string, string>

  datatype Line = Line(rec: Record, lookup: Lookup)

  function EmptyBatch(known: Lookup): Batch {
    Batch(Meta("", "", "", "", "", 0, 0, "", ACTIVITY_IDLE, ZERO_TIME, ZERO_TIME), Counts(0, 0, 0), false, map[], known)
  }

  function Stamped(m: Meta, t: Option<Time>): Meta {
    match t
    case None => m
    case Some(t) => m.(startedAt := if m.startedAt == ZERO_TIME then t else m.startedAt, lastActivityAt := t)
  }

  function Noted(m: Meta, rec: Record): Meta
    requires rec.Record?
  {
    Stamped(m, rec.timestamp).(
      sessionID := Latest(m.sessionID, rec.sessionID),
      cwd := Latest(m.cwd, rec.cwd),
      branch := Latest(m.branch, rec.gitBranch),
      slug := if rec.slug != "" && rec.kind != "progress" && m.slug == "" then rec.slug else m.slug)
  }

  predicate IsUserTurn(rec: Record) {
    rec.Record? && rec.kind == "user" && rec.message.Some? && rec.message.value.role == "user"
  }

  // Only records that carry a working directory count as assistant turns.
  predicate IsAssistantTurn(rec: Record) {
    && rec.Record? && rec.kind == "assistant" && rec.cwd != ""
    && rec.message.Some? && rec.message.value.role == "assistant"
  }

  function ToolUses(content: seq<Block>): nat {
    if content == [] then 0 else
      ToolUses(content[..|content| - 1]) + (if content[|content| - 1].kind == "tool_use" then 1 else 0)
  }

  function LastTool(tool: string, content: seq<Block>): string {
    if content == [] then tool
    else if content[|content| - 1].kind == "tool_use" then content[|content| - 1].name
    else LastTool(tool, content[..|content| - 1])
  }

  // A tool result for a known parent completes that parent's subagent, seen in this batch or not.
  function CompleteOne(subs: map<string, Subagent>, block: Block, lookup: Lookup, at: Time): map<string, Subagent> {
    if block.kind != "tool_result" || block.toolUseID == "" || block.toolUseID !in lookup then subs else
      var id := lookup[block.toolUseID];
      if id in subs then subs[id := subs[id].(completed := true, activity := ACTIVITY_TERMINAL, completedAt := at)]
      else subs[id := Subagent(id, block.toolUseID, "", "", 0, 0, 0, 0, "",
                        ACTIVITY_TERMINAL, ZERO_TIME, ZERO_TIME, true, at)]
  }

  function Complete(subs: map<string, Subagent>, blocks: seq<Block>, lookup: Lookup, at: Time): map<string, Subagent> {
    if blocks == [] then subs else
      CompleteOne(Complete(subs, blocks[..|blocks| - 1], lookup, at), blocks[|blocks| - 1], lookup, at)
  }

  function AfterUser(b: Batch, msg: Message, lookup: Lookup): Batch {
    Batch(b.meta.(activity := ACTIVITY_WORKING), b.counts.(msgs := b.counts.msgs + 1), true,
          Complete(b.subs, msg.content, lookup, b.meta.lastActivityAt), b.parents)
  }

  function AssistantMeta(m: Meta, msg: Message): Meta {
    m.(model := Latest(m.model, msg.model),
       contextTokens := if msg.usage.Some? then msg.usage.value.Context() else m.contextTokens,
       outputTokens := if msg.usage.Some? then msg.usage.value.output else m.outputTokens,
       currentTool := LastTool(m.currentTool, msg.content),
       activity := if msg.stopReason == "end_turn" then ACTIVITY_WAITING
                   else if msg.stopReason == "tool_use" then ACTIVITY_WORKING
                   else m.activity)
  }

  function AfterAssistant(b: Batch, msg: Message): Batch {
    Batch(AssistantMeta(b.meta, msg),
          b.counts.(msgs := b.counts.msgs + 1, tools := b.counts.tools + ToolUses(msg.content)),
          true, b.subs, b.parents)
  }

  predicate IsAgent(rec: Record) {
    rec.Record? && rec.data.Data? && rec.data.header == Some("agent_progress")
  }

  // Tool progress of the session itself, or with nothing to tell it apart, is not a subagent's.
  predicate Ignored(b: Batch, rec: Record)
    requires rec.Record?
  {
    || rec.toolUseID == ""
    || (!IsAgent(rec) && rec.slug != "" && b.meta.slug != "" && rec.slug == b.meta.slug)
    || (!IsAgent(rec) && rec.slug == "" && rec.toolUseID !in b.subs)
  }

  function NewSubagent(rec: Record): Subagent
    requires rec.Record?
  {
    Subagent(rec.toolUseID, rec.parentToolUseID, rec.slug, "", 0, 0, 0, 0, "",
             ACTIVITY_WORKING, ZERO_TIME, ZERO_TIME, false, ZERO_TIME)
  }

  function WithMessage(sub: Subagent, msg: Message): Subagent {
    sub.(model := Latest(sub.model, msg.model),
         contextTokens := if msg.usage.Some? then msg.usage.value.Context() else sub.contextTokens,
         outputTokens := if msg.usage.Some? then msg.usage.value.output else sub.outputTokens,
         toolCalls := sub.toolCalls + ToolUses(msg.content),
         currentTool := LastTool(sub.currentTool, msg.content),
         activity := if ToolUses(msg.content) > 0 then ACTIVITY_WORKING else sub.activity)
  }

  function WithBody(sub: Subagent, body: ProgressBody): Subagent {
    if body.kind == "assistant" then
      var sub := sub.(msgCount := sub.msgCount + 1);
      var sub := if body.inner.Some? then WithMessage(sub, body.inner.value) else sub;
      if sub.activity != ACTIVITY_WORKING then sub.(activity := ACTIVITY_WAITING) else sub
    else if body.kind == "user" then
      sub.(msgCount := sub.msgCount + 1, activity := ACTIVITY_WAITING)
    else sub
  }

  // The slug and the times a progress record gives.
  function WithHead(sub: Subagent, rec: Record): Subagent
    requires rec.Record?
  {
    var sub := sub.(slug := if rec.slug != "" && sub.slug == "" then rec.slug else sub.slug);
    match rec.timestamp
    case None => sub
    case Some(t) => sub.(firstTime := if sub.firstTime == ZERO_TIME then t else sub.firstTime, lastTime := t)
  }

  function WithProgress(sub: Subagent, rec: Record): Subagent
    requires rec.Record?
  {
    var sub := WithHead(sub, rec);
    if rec.data.Data? && rec.data.body.Some? then WithBody(sub, rec.data.body.value) else sub
  }

  function AfterProgress(b: Batch, rec: Record): Batch
    requires rec.Record?
  {
    var id := rec.toolUseID;
    if Ignored(b, rec) then b
    else if id in b.subs then b.(subs := b.subs[id := WithProgress(b.subs[id], rec)])
    else b.(subs := b.subs[id := WithProgress(NewSubagent(rec), rec)],
            parents := if rec.parentToolUseID != "" then b.parents[rec.parentToolUseID := id] else b.parents)
  }

  function AfterRecord(b: Batch, rec: Record, lookup: Lookup): Batch {
    if rec.Malformed? then b else
      var b := b.(meta := Noted(b.meta, rec));
      if IsUserTurn(rec) then AfterUser(b, rec.message.value, lookup)
      else if IsAssistantTurn(rec) then AfterAssistant(b, rec.message.value)
      else if rec.kind == "progress" then AfterProgress(b, rec)
      else if rec.kind == "compaction" then b.(counts := b.counts.(compactions := b.counts.compactions + 1))
      else b
  }

  function ParseBatch(known: Lookup, lines: seq<Line>): Batch {
    if lines == [] then EmptyBatch(known) else
      AfterRecord(ParseBatch(known, lines[..|lines| - 1]), lines[|lines| - 1].rec, lines[|lines| - 1].lookup)
  }

  // `l` finds, for every parent named by a subagent, one of the subagents that name it, and for the
  // other parents what earlier batches knew.
  ghost predicate LookupOk(subs: map<string, Subagent>, known: Lookup, l: Lookup) {
    && (forall id :: id in subs && subs[id].parent != "" ==> subs[id].parent in l)
    && (forall p :: p in known ==> p in l)
    && (forall p :: p in l ==> Names(subs, l[p], p) || (p in known && l[p] == known[p] && Unnamed(subs, p)))
  }

  predicate Names(subs: map<string, Subagent>, id: string, p: string) {
    p != "" && id in subs && subs[id].parent == p
  }

  ghost predicate Unnamed(subs: map<string, Subagent>, p: string) {
    forall id :: id in subs ==> !Names(subs, id, p)
  }

  ghost predicate BatchOk(known: Lookup, lines: seq<Line>) {
    lines != [] ==>
      var n := |lines| - 1;
      && BatchOk(known, lines[..n])
      && (IsUserTurn(lines[n].rec) ==>
            var b := ParseBatch(known, lines[..n]);
            LookupOk(b.subs, b.parents, lines[n].lookup))
  }

  /******* The parser *******/

  // Counts the tool uses in a message and keeps the name of the last.
  method CountTools(content: seq<Block>, tools: int, tool: string) returns (toolDelta: int, currentTool: string)
    ensures toolDelta == tools + ToolUses(content) && currentTool == LastTool(tool, content)
  {
    toolDelta, currentTool := tools, tool;
    var j := 0;
    while j < |content|
      invariant 0 <= j <= |content|
      invariant toolDelta == tools + ToolUses(content[..j])
      invariant currentTool == LastTool(tool, content[..j])
    {
      assert content[..j + 1][..j] == content[..j];
      if content[j].kind == "tool_use" {
        toolDelta := toolDelta + 1;
        currentTool := content[j].name;
      }
      j := j + 1;
    }
    assert content[..j] == content;
  }

  class ParseResult {
    var meta: Meta
    var counts: Counts
    var hasData: bool
    var subagents: map<string, Subagent>
    var parentMap: Lookup

    constructor (known: Lookup)
      ensures Value() == EmptyBatch(known)
    {
      meta := Meta("", "", "", "", "", 0, 0, "", ACTIVITY_IDLE, ZERO_TIME, ZERO_TIME);
      counts, hasData := Counts(0, 0, 0), false;
      subagents, parentMap := map[], known;
    }

    function Value(): Batch
      reads this
    {
      Batch(meta, counts, hasData, subagents, parentMap)
    }

    method ParseRecord(rec: Record) returns (ghost lookup: Lookup)
      modifies this
      ensures Value() == AfterRecord(old(Value()), rec, lookup)
      ensures IsUserTurn(rec) ==> LookupOk(old(subagents), old(parentMap), lookup)
    {
      lookup := map[];
      if rec.Malformed? {
        return;
      }
      Note(rec);
      if rec.kind == "user" {
        if rec.message.Some? && rec.message.value.role == "user" {
          counts := counts.(msgs := counts.msgs + 1);
          meta := meta.(activity := ACTIVITY_WORKING);
          hasData := true;
          lookup := CheckSubagentCompletion(rec.message.value.content, meta.lastActivityAt);
        }
      } else if rec.kind == "assistant" {
        if rec.message.None? || rec.message.value.role != "assistant" || rec.cwd == "" {
          return;
        }
        CountAssistant(rec.message.value);
      } else if rec.kind == "progress" {
        ParseProgressRecord(rec);
      } else if rec.kind == "compaction" {
        counts := counts.(compactions := counts.compactions + 1);
      }
    }

    // The timestamp and the metadata any record may carry.
    method Note(rec: Record)
      requires rec.Record?
      modifies this`meta
      ensures meta == Noted(old(meta), rec)
    {
      Stamp(rec.timestamp);
      if rec.sessionID != "" {
        meta := meta.(sessionID := rec.sessionID);
      }
      if rec.cwd != "" {
        meta := meta.(cwd := rec.cwd);
      }
      if rec.gitBranch != "" {
        meta := meta.(branch := rec.gitBranch);
      }
      if rec.slug != "" && rec.kind != "progress" && meta.slug == "" {
        meta := meta.(slug := rec.slug);
      }
    }

    method Stamp(timestamp: Option<Time>)
      modifies this`meta
      ensures meta == Stamped(old(meta), timestamp)
    {
      if timestamp.Some? {
        if meta.startedAt == ZERO_TIME {
          meta := meta.(startedAt := timestamp.value);
        }
        meta := meta.(lastActivityAt := timestamp.value);
      }
    }

    method CountAssistant(msg: Message)
      modifies this
      ensures Value() == AfterAssistant(old(Value()), msg)
    {
      counts := counts.(msgs := counts.msgs + 1);
      hasData := true;
      if msg.model != "" {
        meta := meta.(model := msg.model);
      }
      if msg.usage.Some? {
        meta := meta.(contextTokens := msg.usage.value.Context(), outputTokens := msg.usage.value.output);
      }
      var toolDelta, currentTool := CountTools(msg.content, counts.tools, meta.currentTool);
      counts, meta := counts.(tools := toolDelta), meta.(currentTool := currentTool);
      if msg.stopReason == "end_turn" {
        meta := meta.(activity := ACTIVITY_WAITING);
      } else if msg.stopReason == "tool_use" {
        meta := meta.(activity := ACTIVITY_WORKING);
      }
    }

    method ParseProgressRecord(rec: Record)
      requires rec.Record?
      modifies this`subagents, this`parentMap
      ensures Value() == AfterProgress(old(Value()), rec)
    {
      if rec.toolUseID == "" {
        return;
      }
      var isAgent := rec.data.Data? && rec.data.header == Some("agent_progress");
      if !isAgent && rec.slug != "" && meta.slug != "" && rec.slug == meta.slug {
        return;
      }
      if rec.toolUseID !in subagents {
        if !isAgent && rec.slug == "" {
          return;
        }
        subagents := subagents[rec.toolUseID := NewSubagent(rec)];
        if rec.parentToolUseID != "" {
          parentMap := parentMap[rec.parentToolUseID := rec.toolUseID];
        }
      }
      var sub := UpdateSubagent(subagents[rec.toolUseID], rec);
      subagents := subagents[rec.toolUseID := sub];
    }

    method CheckSubagentCompletion(blocks: seq<Block>, at: Time) returns (ghost lookup: Lookup)
      modifies this`subagents
      ensures LookupOk(old(subagents), parentMap, lookup)
      ensures subagents == Complete(old(subagents), blocks, lookup, at)
    {
      var parentToSub := LinkParents(subagents);
      MergedLookup(subagents, parentMap, parentToSub);
      parentToSub := parentMap + parentToSub;
      lookup := parentToSub;
      if |parentToSub| == 0 {
        NothingToComplete(subagents, blocks, parentToSub, at);
        return;
      }
      CompleteBlocks(blocks, parentToSub, at);
    }

    method CompleteBlocks(blocks: seq<Block>, parentToSub: Lookup, at: Time)
      modifies this`subagents
      ensures subagents == Complete(old(subagents), blocks, parentToSub, at)
    {
      var i := 0;
      while i < |blocks|
        invariant 0 <= i <= |blocks|
        invariant subagents == Complete(old(subagents), blocks[..i], parentToSub, at)
      {
        CompleteNext(old(subagents), blocks, i, parentToSub, at);
        CompleteBlock(blocks[i], parentToSub, at);
        i := i + 1;
      }
      assert blocks[..i] == blocks;
    }

    method CompleteBlock(block: Block, parentToSub: Lookup, at: Time)
      modifies this`subagents
      ensures subagents == CompleteOne(old(subagents), block, parentToSub, at)
    {
      if block.kind != "tool_result" || block.toolUseID == "" {
        return;
      }
      if block.toolUseID !in parentToSub {
        return;
      }
      var id := parentToSub[block.toolUseID];
      if id in subagents {
        subagents := subagents[id := subagents[id].(completed := true, activity := ACTIVITY_TERMINAL,
                                             completedAt := at)];
      } else {
        subagents := subagents[id :=
          Subagent(id, block.toolUseID, "", "", 0, 0, 0, 0, "", ACTIVITY_TERMINAL, ZERO_TIME, ZERO_TIME, true, at)];
      }
    }
  }

  lemma CompleteNext(subs: map<string, Subagent>, blocks: seq<Block>, i: nat, lookup: Lookup, at: Time)
    requires i < |blocks|
    ensures Complete(subs, blocks[..i + 1], lookup, at)
         == CompleteOne(Complete(subs, blocks[..i], lookup, at), blocks[i], lookup, at)
  {
    assert blocks[..i + 1][..i] == blocks[..i];
  }

  // What this batch knows takes precedence over what earlier ones knew.
  lemma MergedLookup(subs: map<string, Subagent>, known: Lookup, links: Lookup)
    requires LookupOk(subs, map[], links)
    ensures LookupOk(subs, known, known + links)
  {
  }

  lemma BatchPush(known: Lookup, lines: seq<Line>, line: Line)
    ensures ParseBatch(known, lines + [line]) == AfterRecord(ParseBatch(known, lines), line.rec, line.lookup)
    ensures BatchOk(known, lines + [line]) <==>
            BatchOk(known, lines)
            && (IsUserTurn(line.rec) ==>
                  LookupOk(ParseBatch(known, lines).subs, ParseBatch(known, lines).parents, line.lookup))
  {
    assert (lines + [line])[..|lines|] == lines;
  }

  lemma {:induction false} NothingToComplete(subs: map<string, Subagent>, blocks: seq<Block>, lookup: Lookup, at: Time)
    requires lookup == map[]
    ensures Complete(subs, blocks, lookup, at) == subs
  {
    if blocks != [] {
      NothingToComplete(subs, blocks[..|blocks| - 1], lookup, at);
    }
  }

  // The parent of each subagent that has one, in any order; of several with one parent any may be kept.
  method LinkParents(subs: map<string, Subagent>) returns (links: Lookup)
    ensures LookupOk(subs, map[], links)
  {
    links := map[];
    var todo := subs.Keys;
    while todo != {}
      invariant todo <= subs.Keys
      invariant forall id :: id in subs.Keys - todo && subs[id].parent != "" ==> subs[id].parent in links
      invariant forall p :: p in links ==> Names(subs, links[p], p)
      decreases todo
    {
      var id :| id in todo;
      todo := todo - {id};
      if subs[id].parent != "" {
        links := links[subs[id].parent := id];
      }
    }
  }

  method UpdateSubagent(s: Subagent, rec: Record) returns (sub: Subagent)
    requires rec.Record?
    ensures sub == WithProgress(s, rec)
  {
    sub := s;
    if rec.slug != "" && sub.slug == "" {
      sub := sub.(slug := rec.slug);
    }
    if rec.timestamp.Some? {
      if sub.firstTime == ZERO_TIME {
        sub := sub.(firstTime := rec.timestamp.value);
      }
      sub := sub.(lastTime := rec.timestamp.value);
    }
    if rec.data.NoData? || rec.data.body.None? {
      return;
    }
    sub := CountMessage(sub, rec.data.body.value);
  }

  method CountMessage(s: Subagent, body: ProgressBody) returns (sub: Subagent)
    ensures sub == WithBody(s, body)
  {
    sub := s;
    if body.kind == "assistant" {
      sub := sub.(msgCount := sub.msgCount + 1);
      if body.inner.Some? {
        sub := ParseSubagentAssistantMessage(sub, body.inner.value);
      }
      if sub.activity != ACTIVITY_WORKING {
        sub := sub.(activity := ACTIVITY_WAITING);
      }
    } else if body.kind == "user" {
      sub := sub.(msgCount := sub.msgCount + 1, activity := ACTIVITY_WAITING);
    }
  }

  method ParseSubagentAssistantMessage(s: Subagent, msg: Message) returns (sub: Subagent)
    ensures sub == WithMessage(s, msg)
  {
    sub := s;
    if msg.model != "" {
      sub := sub.(model := msg.model);
    }
    if msg.usage.Some? {
      sub := sub.(contextTokens := msg.usage.value.Context(), outputTokens := msg.usage.value.output);
    }
    var toolCalls, currentTool, activity := sub.toolCalls, sub.currentTool, sub.activity;
    var i := 0;
    while i < |msg.content|
      invariant 0 <= i <= |msg.content|
      invariant toolCalls == s.toolCalls + ToolUses(msg.content[..i])
      invariant currentTool == LastTool(s.currentTool, msg.content[..i])
      invariant activity == if ToolUses(msg.content[..i]) > 0 then ACTIVITY_WORKING else s.activity
    {
      assert msg.content[..i + 1][..i] == msg.content[..i];
      if msg.content[i].kind == "tool_use" {
        toolCalls, currentTool, activity := toolCalls + 1, msg.content[i].name, ACTIVITY_WORKING;
      }
      i := i + 1;
    }
    assert msg.content[..i] == msg.content;
    sub := sub.(toolCalls := toolCalls, currentTool := currentTool, activity := activity);
  }

  // One more line: what has been parsed so far grows by it.
  method ParseLine(r: ParseResult, decode: Decode, line: Bytes, ghost known: Lookup, ghost parsed: seq<Line>)
    returns (ghost lookup: Lookup)
    requires r.Value() == ParseBatch(known, parsed) && BatchOk(known, parsed)
    modifies r
    ensures var parsed' := parsed + [Line(RecordOf(decode, line), lookup)];
            r.Value() == ParseBatch(known, parsed') && BatchOk(known, parsed')
  {
    lookup := map[];
    if |line| > 0 {
      lookup := r.ParseRecord(decode(line));
    }
    BatchPush(known, parsed, Line(RecordOf(decode, line), lookup));
  }

  method ParseLinesWithParents(decode: Decode, lines: seq<Bytes>, known: Lookup)
    returns (r: ParseResult, ghost parsed: seq<Line>)
    ensures fresh(r) && r.Value() == ParseBatch(known, parsed) && BatchOk(known, parsed)
    ensures |parsed| == |lines| && forall i :: 0 <= i < |lines| ==> parsed[i].rec == RecordOf(decode, lines[i])
  {
    r := new ParseResult(known);
    parsed := [];
    var i := 0;
    while i < |lines|
      invariant 0 <= i <= |lines|
      invariant r.Value() == ParseBatch(known, parsed) && BatchOk(known, parsed)
      invariant |parsed| == i && forall k :: 0 <= k < i ==> parsed[k].rec == RecordOf(decode, lines[k])
      modifies r
    {
      ghost var lookup := ParseLine(r, decode, lines[i], known, parsed);
      parsed := parsed + [Line(RecordOf(decode, lines[i]), lookup)];
      i := i + 1;
    }
  }
}

// What a stream says, told from the inputs alone: which turns of the model are played, what they
// lead to, and every frame but the traces of the phases.
module StreamAnswers {
  import opened Options
  import opened AnswerStream
  import Gateway
  import Cache = SemanticCache

  // ---- the turns that are played ----

  // The first tool call among the chunks.
  ghost predicate IsFirstCall(chunks: seq<Gateway.Chunk>, call: Gateway.Chunk) {
    exists j :: 0 <= j < |chunks| && chunks[j] == call && call.ToolCall?
             && forall i :: 0 <= i < j ==> !chunks[i].ToolCall?
  }

  ghost predicate CallsNothing(chunks: seq<Gateway.Chunk>) {
    forall i :: 0 <= i < |chunks| ==> !chunks[i].ToolCall?
  }

  // The query: the one in the call's arguments, else the question, without white space at the
  // ends; the question itself if that leaves nothing.
  ghost predicate IsQuery(x: Inputs, arguments: string, query: string) {
    var asked := x.queryIn(arguments);
    && (asked != "" && x.strip(asked) != "" ==> query == x.strip(asked))
    && (asked != "" && x.strip(asked) == "" ==> query == x.question)
    && (asked == "" && x.strip(x.question) != "" ==> query == x.strip(x.question))
    && (asked == "" && x.strip(x.question) == "" ==> query == x.question)
  }

  ghost predicate IsChoice(x: Inputs, step: nat, choice: Choice) {
    var reply := x.turns(step);
    if reply.breaks then choice == Breaks
    else if CallsNothing(reply.chunks) then choice == Direct
    else exists call ::
      && IsFirstCall(reply.chunks, call)
      && if call.name == SEARCH then choice.Searches? && IsQuery(x, call.arguments, choice.query)
         else if call.name == BOOK || call.name == LIST || call.name == CANCEL || call.name == RESCHEDULE
         then choice == Runs(call.name, if x.principal then x.outcomes(step) else Forbidden)
         else choice == Unoffered
  }

  function Tokens(chunks: seq<Gateway.Chunk>): nat {
    if chunks == [] then 0
    else (match chunks[0] case Usage(n) => n case _ => 0) + Tokens(chunks[1..])
  }

  ghost predicate IsTurn(x: Inputs, step: nat, turn: Turn) {
    IsChoice(x, step, turn.choice) && turn.usage == Tokens(x.turns(step).chunks)
  }

  lemma {:induction false} FirstCallIff(chunks: seq<Gateway.Chunk>)
    ensures match FirstCall(chunks)
            case None => CallsNothing(chunks)
            case Some(call) => IsFirstCall(chunks, call) && !CallsNothing(chunks)
  {
    if chunks != [] {
      var n := |chunks| - 1;
      FirstCallIff(chunks[..n]);
      match FirstCall(chunks[..n])
      case Some(call) =>
        var j :| 0 <= j < n && chunks[..n][j] == call && call.ToolCall?
              && forall i :: 0 <= i < j ==> !chunks[..n][i].ToolCall?;
        assert chunks[j] == call && forall i :: 0 <= i < j ==> chunks[i] == chunks[..n][i];
      case None =>
        assert forall i :: 0 <= i < n ==> chunks[i] == chunks[..n][i];
    }
  }

  lemma {:induction false} TokensTogether(a: seq<Gateway.Chunk>, b: seq<Gateway.Chunk>)
    ensures Tokens(a + b) == Tokens(a) + Tokens(b)
  {
    if a == [] {
      assert a + b == b;
    } else {
      assert (a + b)[1..] == a[1..] + b;
      TokensTogether(a[1..], b);
    }
  }

  lemma {:induction false} UsageIsTokens(chunks: seq<Gateway.Chunk>)
    ensures UsageOf(chunks) == Tokens(chunks)
  {
    if chunks != [] {
      var n := |chunks| - 1;
      UsageIsTokens(chunks[..n]);
      TokensTogether(chunks[..n], [chunks[n]]);
      assert chunks[..n] + [chunks[n]] == chunks;
      assert [chunks[n]][1..] == [];
    }
  }

  lemma TurnAnswers(x: Inputs, step: nat)
    ensures IsTurn(x, step, TurnAt(x, step))
  {
    var chunks := x.turns(step).chunks;
    FirstCallIff(chunks);
    UsageIsTokens(chunks);
    if !x.turns(step).breaks && FirstCall(chunks).Some? {
      var call := FirstCall(chunks).value;
      assert IsFirstCall(chunks, call);
    }
  }

  // At most four turns; all but the last run a tool, and the last does not unless it is the fourth.
  ghost predicate Played(x: Inputs, turns: seq<Turn>) {
    && 1 <= |turns| <= 4
    && (forall i :: 0 <= i < |turns| ==> IsTurn(x, i, turns[i]))
    && (forall i :: 0 <= i < |turns| - 1 ==> turns[i].choice.Runs?)
    && (|turns| == 4 || !turns[|turns| - 1].choice.Runs?)
  }

  // ---- what is sent, without the traces of the phases ----

  predicate Kept(note: Note) {
    !note.Trace? || note.phase == Tool
  }

  function Shown(notes: seq<Note>): seq<Note> {
    if notes == [] then []
    else (if Kept(notes[0]) then [notes[0]] else []) + Shown(notes[1..])
  }

  lemma {:induction false} ShownTogether(a: seq<Note>, b: seq<Note>)
    ensures Shown(a + b) == Shown(a) + Shown(b)
  {
    if a == [] {
      assert a + b == b;
    } else {
      assert (a + b)[0] == a[0] && (a + b)[1..] == a[1..] + b;
      ShownTogether(a[1..], b);
      Regrouped(if Kept(a[0]) then [a[0]] else [], Shown(a[1..]), Shown(b));
    }
  }

  lemma {:induction false} ShownNone(notes: seq<Note>)
    requires forall i :: 0 <= i < |notes| ==> !Kept(notes[i])
    ensures Shown(notes) == []
  {
    if notes != [] {
      ShownNone(notes[1..]);
    }
  }

  lemma {:induction false} ShownAll(notes: seq<Note>)
    requires forall i :: 0 <= i < |notes| ==> Kept(notes[i])
    ensures Shown(notes) == notes
  {
    if notes != [] {
      ShownAll(notes[1..]);
    }
  }

  // What the deltas of a reply are sent as.
  function Streamed(chunks: seq<Gateway.Chunk>): seq<Note> {
    if chunks == [] then []
    else (match chunks[0] case Delta(text) => [Note.Delta(text)] case _ => []) + Streamed(chunks[1..])
  }

  lemma {:induction false} StreamedTogether(a: seq<Gateway.Chunk>, b: seq<Gateway.Chunk>)
    ensures Streamed(a + b) == Streamed(a) + Streamed(b)
  {
    if a == [] {
      assert a + b == b;
    } else {
      var first := match a[0] case Delta(text) => [Note.Delta(text)] case _ => [];
      assert (a + b)[0] == a[0] && (a + b)[1..] == a[1..] + b;
      StreamedTogether(a[1..], b);
      Regrouped(first, Streamed(a[1..]), Streamed(b));
    }
  }

  lemma {:induction false} DeltasAreStreamed(chunks: seq<Gateway.Chunk>)
    ensures DeltasOf(chunks) == Streamed(chunks)
  {
    if chunks != [] {
      var n := |chunks| - 1;
      DeltasAreStreamed(chunks[..n]);
      StreamedTogether(chunks[..n], [chunks[n]]);
      assert chunks[..n] + [chunks[n]] == chunks;
      assert [chunks[n]][1..] == [];
    }
  }

  lemma {:induction false} StreamedShown(chunks: seq<Gateway.Chunk>)
    ensures Shown(Streamed(chunks)) == Streamed(chunks)
  {
    OnlyDeltas(chunks);
    ShownAll(Streamed(chunks));
  }

  lemma {:induction false} OnlyDeltas(chunks: seq<Gateway.Chunk>)
    ensures forall i :: 0 <= i < |Streamed(chunks)| ==> Streamed(chunks)[i].Delta?
  {
    if chunks != [] {
      OnlyDeltas(chunks[1..]);
    }
  }

  // ---- the tool loop ----

  // How many of the turns run a tool: all of them, or all but the last.
  ghost function ToolCount(turns: seq<Turn>): (n: nat)
    ensures n <= |turns|
  {
    if turns != [] && !turns[|turns| - 1].choice.Runs? then |turns| - 1 else |turns|
  }

  function Spent(turns: seq<Turn>): nat {
    if turns == [] then 0 else turns[0].usage + Spent(turns[1..])
  }

  predicate WritesCard(name: string) {
    name == BOOK || name == CANCEL || name == RESCHEDULE
  }

  function ToolStatus(outcome: Outcome): Status {
    if outcome == Forbidden then Blocked
    else if outcome in {Outcome.Failed, Outcome.NotFound, Outcome.Terminal, Outcome.Conflict} then Broken
    else Completed
  }

  // The traces of the tools that ran, and of one that was refused.
  function ToolNotes(turns: seq<Turn>): seq<Note> {
    if turns == [] then []
    else
      (match turns[0].choice
       case Runs(name, outcome) => [Trace(Tool, ToolStatus(outcome), Some(name))]
       case Unoffered => [Trace(Tool, Blocked, None)]
       case _ => []) + ToolNotes(turns[1..])
  }

  // The cards of the tools that write.
  function CardNotes(turns: seq<Turn>): seq<Note> {
    if turns == [] then []
    else
      (if turns[0].choice.Runs? && WritesCard(turns[0].choice.name) then [Booking(turns[0].choice.outcome)] else [])
      + CardNotes(turns[1..])
  }

  ghost predicate RanAre(turns: seq<Turn>, ran: seq<ToolRun>) {
    && |ran| == ToolCount(turns)
    && forall i :: 0 <= i < |ran| ==>
         turns[i].choice.Runs? && ran[i] == ToolRun(turns[i].choice.name, turns[i].choice.outcome)
  }

  // What the turns from some step on lead to.
  ghost predicate LeadsTo(turns: seq<Turn>, question: string, route: Route) {
    var last := if turns == [] then Direct else turns[|turns| - 1].choice;
    && RanAre(turns, route.ran)
    && route.usage == Spent(turns)
    && (route.broken <==> last == Breaks)
    && route.search == (match last case Searches(query) => Some(query) case Unoffered => Some(question) case _ => None)
    && Shown(route.notes) == ToolNotes(turns) + if route.broken then [Problem] else []
  }

  // The turns from a step on, up to the one that runs no tool or the fourth.
  ghost predicate PlayedFrom(turnsOf: Turns, step: nat, turns: seq<Turn>) {
    && step + |turns| <= MAX_STEPS
    && (forall i :: 0 <= i < |turns| ==> turns[i] == turnsOf(step + i))
    && (forall i :: 0 <= i < |turns| - 1 ==> turns[i].choice.Runs?)
    && (step + |turns| == MAX_STEPS || (turns != [] && !turns[|turns| - 1].choice.Runs?))
  }

  lemma {:induction false} RouteLeads(turnsOf: Turns, question: string, step: nat) returns (turns: seq<Turn>)
    requires step <= MAX_STEPS
    ensures PlayedFrom(turnsOf, step, turns) && LeadsTo(turns, question, RouteFrom(turnsOf, question, step))
    decreases MAX_STEPS - step
  {
    if step == MAX_STEPS {
      turns := [];
    } else if turnsOf(step).choice.Runs? {
      var rest := RouteLeads(turnsOf, question, step + 1);
      turns := [turnsOf(step)] + rest;
      ToolLeads(turnsOf(step), rest, question, RouteFrom(turnsOf, question, step + 1));
      OneMorePlayed(turnsOf, step, rest);
    } else {
      turns := [turnsOf(step)];
      LastLeads(turnsOf(step), question, step == 0);
    }
  }

  lemma OneMorePlayed(turnsOf: Turns, step: nat, rest: seq<Turn>)
    requires turnsOf(step).choice.Runs? && PlayedFrom(turnsOf, step + 1, rest)
    ensures PlayedFrom(turnsOf, step, [turnsOf(step)] + rest)
  {
    var turns := [turnsOf(step)] + rest;
    forall i | 0 <= i < |turns| ensures turns[i] == turnsOf(step + i) {
      assert i > 0 ==> turns[i] == rest[i - 1];
    }
  }

  lemma LastLeads(turn: Turn, question: string, first: bool)
    requires !turn.choice.Runs?
    ensures LeadsTo([turn], question, EndOf(turn, question, first))
  {
    var turns := [turn];
    assert turns[1..] == [];
    var notes := EndOf(turn, question, first).notes;
    match turn.choice
    case Breaks =>
      assert notes == [Trace(Routing, Broken, None)] + [Problem];
      ShownTogether([Trace(Routing, Broken, None)], [Problem]);
      ShownNone([Trace(Routing, Broken, None)]);
      ShownAll([Problem]);
    case Unoffered => ShownAll(notes);
    case Direct => ShownNone(notes);
    case Searches(_) => ShownNone(notes);
  }

  lemma ToolLeads(turn: Turn, rest: seq<Turn>, question: string, route: Route)
    requires turn.choice.Runs? && LeadsTo(rest, question, route)
    requires rest == [] ==> !route.broken && route.search == None
    ensures LeadsTo([turn] + rest, question, AfterTool(turn, route))
  {
    var turns := [turn] + rest;
    assert turns[1..] == rest;
    var trace := [ToolTrace(turn.choice.name, turn.choice.outcome)];
    ShownTogether(trace, route.notes);
    ShownAll(trace);
    Regrouped(trace, ToolNotes(rest), if route.broken then [Problem] else []);
    OneMoreRan(turn, rest, route.ran);
  }

  lemma OneMoreRan(turn: Turn, rest: seq<Turn>, ran: seq<ToolRun>)
    requires turn.choice.Runs? && RanAre(rest, ran)
    ensures RanAre([turn] + rest, [ToolRun(turn.choice.name, turn.choice.outcome)] + ran)
  {
    var turns := [turn] + rest;
    forall i | 0 <= i < |turns| ensures turns[i] == if i == 0 then turn else rest[i - 1] {}
  }

  // ---- what the turns lead to ----

  // Tools ran and nothing was searched for: their results are put into words.
  ghost predicate TellsTools(turns: seq<Turn>)
    requires turns != []
  {
    var last := turns[|turns| - 1].choice;
    last.Runs? || (last == Direct && |turns| > 1)
  }

  function Text(chunks: seq<Gateway.Chunk>): string {
    if chunks == [] then ""
    else (match chunks[0] case Delta(text) => text case _ => "") + Text(chunks[1..])
  }

  lemma {:induction false} SaidIsText(chunks: seq<Gateway.Chunk>)
    ensures Said(Streamed(chunks)) == Text(chunks)
  {
    if chunks != [] {
      var first := match chunks[0] case Delta(text) => [Note.Delta(text)] case _ => [];
      SaidIsText(chunks[1..]);
      SaidTogether(first, Streamed(chunks[1..]));
      SaidOnce(first);
    }
  }

  lemma SaidOnce(notes: seq<Note>)
    requires |notes| <= 1
    ensures Said(notes) == if notes != [] && notes[0].Delta? then notes[0].text else ""
  {
    if notes != [] {
      assert notes[..0] == [];
    }
  }

  // The whole of the tokens, if any.
  function Total(turns: seq<Turn>, chunks: seq<Gateway.Chunk>): Option<nat> {
    if Spent(turns) + Tokens(chunks) > 0 then Some(Spent(turns) + Tokens(chunks)) else None
  }

  // The messages of a conversation: the question, and the answer if there is one.
  function MessagesOf(x: Inputs, answer: Option<Message>): seq<Message> {
    if !(x.principal && x.conversation && x.repository) then []
    else if answer.None? then [User(x.question)] else [User(x.question), answer.value]
  }

  function Head(x: Inputs, turns: seq<Turn>, rest: seq<Note>): seq<Note> {
    [Started(x.principal && x.conversation && x.repository)] + (ToolNotes(turns) + rest)
  }

  // All that is shown: the start, the tools that ran, and what follows; the messages that are
  // stored; and what goes into the cache.
  ghost predicate Tells(x: Inputs, turns: seq<Turn>, s: Session, rest: seq<Note>, answer: Option<Message>,
                        put: Option<Cache.Entry>)
  {
    && Shown(s.notes) == Head(x, turns, rest)
    && s.messages == MessagesOf(x, answer) && s.put == put
  }

  ghost predicate TellsCanned(x: Inputs, s: Session, text: string, offtopic: bool) {
    && s.ran == []
    && Tells(x, [], s, [Delta(text), Citations([]), Answered(false, offtopic, None)],
             Some(Assistant(text, offtopic, false, 0)), None)
  }

  // One card for each tool that writes, in order, and the model's words; nothing is cited.
  ghost predicate TellsResults(x: Inputs, turns: seq<Turn>, s: Session) {
    var told := CardNotes(turns) + Streamed(x.reply.chunks);
    if x.reply.breaks then Tells(x, turns, s, told + [Problem], None, None)
    else Tells(x, turns, s, told + [Answered(false, false, Total(turns, x.reply.chunks))],
               Some(Assistant(Text(x.reply.chunks), false, false, 0)), None)
  }

  // The positions at which an item stands for the first time, among the first n.
  ghost predicate Firsts(all: seq<Cache.Citation>, n: nat, at: seq<nat>)
    requires n <= |all|
  {
    forall i: nat :: i < n ==> (i in at <==> all[i] !in all[..i])
  }

  // Each item where it first stands.
  ghost predicate FirstOnes(all: seq<Cache.Citation>, hits: seq<Cache.Citation>, at: seq<nat>) {
    && |at| == |hits|
    && (forall i, j :: 0 <= i < j < |at| ==> at[i] < at[j])
    && (forall j :: 0 <= j < |at| ==> at[j] < |all| && hits[j] == all[at[j]])
    && Firsts(all, |all|, at)
  }

  // What the knowledge base has for a query, or the static pages where it has nothing.
  ghost function FoundFor(x: Inputs, query: string): seq<Candidate> {
    if x.knowledge(query) != [] then x.knowledge(query) else x.pages(query)
  }

  // The sources for the query, then those for the question, each once.
  ghost predicate AreHits(x: Inputs, query: string, hits: seq<Cache.Citation>) {
    exists at :: FirstOnes(Sources(FoundFor(x, query)) + Sources(FoundFor(x, x.question)), hits, at)
  }

  ghost predicate QueryIs(x: Inputs, turns: seq<Turn>, query: string)
    requires turns != []
  {
    match turns[|turns| - 1].choice
    case Searches(q) => query == if q != "" then q else x.question
    case _ => query == x.question
  }

  predicate MayCache(x: Inputs, ran: seq<ToolRun>) {
    x.cached && !x.principal && !x.conversation && ran == []
  }

  // The cached answer; or a refusal if nothing is found; or the model's answer with its sources.
  function KnowledgeNotes(
    x: Inputs, turns: seq<Turn>, cached: bool, query: string, hits: seq<Cache.Citation>): seq<Note>
    requires cached ==> x.lookup.Found?
  {
    if cached then [Delta(x.lookup.answer), Citations(x.lookup.citations), Answered(true, false, None)]
    else if hits == [] then [ToolCalls(query, []), Delta(OFFTOPIC_REPLY), Citations([]), Answered(false, true, None)]
    else
      [ToolCalls(query, hits)] + Streamed(x.reply.chunks) +
      if x.reply.breaks then [Problem] else [Citations(hits), Answered(true, false, Total(turns, x.reply.chunks))]
  }

  // The answer is stored unless it broke off or came from the cache; it goes into the cache
  // exactly if that was asked and had nothing.
  ghost predicate TellsKnowledge(x: Inputs, turns: seq<Turn>, s: Session, query: string, hits: seq<Cache.Citation>) {
    var cached := MayCache(x, s.ran) && x.lookup.Found?;
    var notes := KnowledgeNotes(x, turns, cached, query, hits);
    if cached then Tells(x, turns, s, notes, None, None)
    else if hits == [] then Tells(x, turns, s, notes, Some(Assistant(OFFTOPIC_REPLY, true, false, 0)), None)
    else if x.reply.breaks then Tells(x, turns, s, notes, None, None)
    else
      var text := Text(x.reply.chunks);
      Tells(x, turns, s, notes, Some(Assistant(text, false, true, |hits|)),
            if MayCache(x, s.ran) && x.lookup.Miss? then Some(Cache.Entry(x.embedding, text, hits, x.model)) else None)
  }

  ghost predicate TellsTurns(x: Inputs, turns: seq<Turn>, s: Session)
    requires turns != []
  {
    && RanAre(turns, s.ran)
    && if turns[|turns| - 1].choice == Breaks then Tells(x, turns, s, [Problem], None, None)
       else if TellsTools(turns) then TellsResults(x, turns, s)
       else exists query, hits :: QueryIs(x, turns, query) && AreHits(x, query, hits)
                                  && TellsKnowledge(x, turns, s, query, hits)
  }

  // ---- the proof, part by part ----

  lemma {:induction false} DedupedFirst(cs: seq<Candidate>) returns (at: seq<nat>)
    ensures FirstOnes(Sources(cs), Sources(Deduped(cs)), at)
  {
    if cs == [] {
      at := [];
    } else {
      var n := |cs| - 1;
      at := DedupedFirst(cs[..n]);
      assert Sources(cs)[..n] == Sources(cs[..n]);
      FirstOneMore(Sources(cs), Sources(Deduped(cs[..n])), at);
      if cs[n].source !in Sources(cs[..n]) {
        at := at + [n];
        assert Sources(Deduped(cs)) == Sources(Deduped(cs[..n])) + [cs[n].source];
      } else {
        assert Deduped(cs) == Deduped(cs[..n]);
      }
    }
  }

  lemma FirstsOfPrefix(all: seq<Cache.Citation>, at: seq<nat>)
    requires all != []
    ensures var n := |all| - 1; Firsts(all[..n], n, at) <==> Firsts(all, n, at)
  {
    var n := |all| - 1;
    forall i: nat | i < n ensures all[..n][..i] == all[..i] && all[..n][i] == all[i] {}
  }

  lemma FirstOneMore(all: seq<Cache.Citation>, hits: seq<Cache.Citation>, at: seq<nat>)
    requires all != [] && FirstOnes(all[..|all| - 1], hits, at)
    ensures var n := |all| - 1;
            if all[n] in all[..n] then FirstOnes(all, hits, at) else FirstOnes(all, hits + [all[n]], at + [n])
  {
    var n := |all| - 1;
    assert Firsts(all[..n], n, at);
    FirstsOfPrefix(all, at);
    assert n !in at;
    if all[n] !in all[..n] {
      assert Firsts(all, n, at + [n]);
    }
  }

  lemma MergedAreHits(x: Inputs, query: string)
    ensures AreHits(x, query, Sources(Merged(x, query)))
  {
    var a, b := Retrieved(x, query), Retrieved(x, x.question);
    var at := DedupedFirst(a + b);
    assert Sources(a + b) == Sources(a) + Sources(b);
    assert a == FoundFor(x, query) && b == FoundFor(x, x.question);
  }

  lemma {:induction false} CardsTogether(turns: seq<Turn>, ran: seq<ToolRun>)
    requires RanAre(turns, ran)
    ensures Cards(ran) == CardNotes(turns)
    decreases |turns|
  {
    if ran != [] {
      CardsFromFront(ran);
      var turns', ran' := turns[1..], ran[1..];
      forall i | 0 <= i < |ran'| ensures turns'[i] == turns[i + 1] && ran'[i] == ran[i + 1] {}
      CardsTogether(turns', ran');
    } else if turns != [] {
      assert turns[1..] == [];
    }
  }

  lemma {:induction false} CardsAppend(a: seq<ToolRun>, b: seq<ToolRun>)
    ensures Cards(a + b) == Cards(a) + Cards(b)
  {
    if b == [] {
      assert a + b == a;
    } else {
      var n := |b| - 1;
      assert (a + b)[..|a + b| - 1] == a + b[..n];
      CardsAppend(a, b[..n]);
      Regrouped(Cards(a), Cards(b[..n]), if WritesCard(b[n].name) then [Booking(b[n].outcome)] else []);
    }
  }

  lemma CardsFromFront(ran: seq<ToolRun>)
    requires ran != []
    ensures Cards(ran) == (if WritesCard(ran[0].name) then [Booking(ran[0].outcome)] else []) + Cards(ran[1..])
  {
    assert ran == [ran[0]] + ran[1..] && [ran[0]][..0] == [];
    CardsAppend([ran[0]], ran[1..]);
  }

  lemma Regrouped<T>(a: seq<T>, b: seq<T>, c: seq<T>)
    ensures (a + b) + c == a + (b + c)
  {}

  // A phase trace in front of the rest shows nothing; other notes show as they are.
  lemma ShownAfterPhase(note: Note, rest: seq<Note>)
    requires !Kept(note)
    ensures Shown([note] + rest) == Shown(rest)
  {
    ShownTogether([note], rest);
    ShownNone([note]);
  }

  lemma ShownAfterKept(note: Note, rest: seq<Note>)
    requires Kept(note)
    ensures Shown([note] + rest) == [note] + Shown(rest)
  {
    ShownTogether([note], rest);
    ShownAll([note]);
  }

  lemma ShownTails(hits: seq<Cache.Citation>, usage: Option<nat>)
    ensures Shown(BROKEN) == [Problem]
    ensures Shown(CitedTail(hits, usage)) == [Citations(hits), Answered(true, false, usage)]
    ensures Shown(ToldTail(usage)) == [Answered(false, false, usage)]
  {
    assert BROKEN == [Trace(Generation, Broken, None)] + [Problem];
    ShownAfterPhase(Trace(Generation, Broken, None), [Problem]);
    ShownAll([Problem]);
    var done, result, end := Trace(Generation, Completed, None), Trace(Result, Completed, None),
      Answered(true, false, usage);
    assert CitedTail(hits, usage) == [done] + ([Citations(hits)] + ([result] + [end]));
    ShownAfterPhase(done, [Citations(hits)] + ([result] + [end]));
    ShownAfterKept(Citations(hits), [result] + [end]);
    ShownAfterPhase(result, [end]);
    ShownAll([end]);
    var told := Answered(false, false, usage);
    assert ToldTail(usage) == [done] + ([result] + [told]);
    ShownAfterPhase(done, [result] + [told]);
    ShownAfterPhase(result, [told]);
    ShownAll([told]);
  }

  lemma ShownReply(x: Inputs, before: seq<Note>, tail: seq<Note>)
    ensures Shown(before + (DeltasOf(x.reply.chunks) + tail)) == Shown(before) + Streamed(x.reply.chunks) + Shown(tail)
  {
    DeltasAreStreamed(x.reply.chunks);
    StreamedShown(x.reply.chunks);
    ShownTogether(before, DeltasOf(x.reply.chunks) + tail);
    ShownTogether(DeltasOf(x.reply.chunks), tail);
  }

  lemma ShownCards(ran: seq<ToolRun>)
    ensures Shown(Intro(ran)) == Cards(ran)
  {
    var routing, generation := Trace(Routing, Completed, None), Trace(Generation, Begun, None);
    assert Intro(ran) == [routing] + (Cards(ran) + [generation]);
    ShownAfterPhase(routing, Cards(ran) + [generation]);
    ShownTogether(Cards(ran), [generation]);
    ShownNone([generation]);
    CardsAreCards(ran);
    ShownAll(Cards(ran));
  }

  lemma {:induction false} CardsAreCards(ran: seq<ToolRun>)
    ensures forall i :: 0 <= i < |Cards(ran)| ==> Cards(ran)[i].Booking?
  {
    if ran != [] {
      CardsAreCards(ran[..|ran| - 1]);
    }
  }

  lemma ShownEvidence(query: string, hits: seq<Cache.Citation>)
    ensures Shown(Evidence(query, hits)) == [ToolCalls(query, hits)]
  {
    var found, generation := Trace(Retrieval, Completed, Some(SEARCH)), Trace(Generation, Begun, None);
    assert Evidence(query, hits) == [found] + ([ToolCalls(query, hits)] + [generation]);
    ShownAfterPhase(found, [ToolCalls(query, hits)] + [generation]);
    ShownAfterKept(ToolCalls(query, hits), [generation]);
    ShownNone([generation]);
  }

  lemma ShownFromTools(x: Inputs, turns: seq<Turn>, route: Route)
    requires RanAre(turns, route.ran) && route.usage == Spent(turns)
    ensures Shown(FromTools(x, route).notes) ==
            CardNotes(turns) + Streamed(x.reply.chunks) +
            if x.reply.breaks then [Problem] else [Answered(false, false, Total(turns, x.reply.chunks))]
  {
    var usage := Usage(route.usage + UsageOf(x.reply.chunks));
    UsageIsTokens(x.reply.chunks);
    CardsTogether(turns, route.ran);
    ShownCards(route.ran);
    ShownTails([], usage);
    ShownReply(x, Intro(route.ran), if x.reply.breaks then BROKEN else ToldTail(usage));
  }

  lemma ShownGrounded(x: Inputs, turns: seq<Turn>, route: Route, query: string, hits: seq<Cache.Citation>)
    requires route.usage == Spent(turns)
    ensures Shown(Grounded(x, route, query, hits).notes) ==
            [ToolCalls(query, hits)] + Streamed(x.reply.chunks) +
            if x.reply.breaks then [Problem]
            else [Citations(hits), Answered(true, false, Total(turns, x.reply.chunks))]
  {
    var usage := Usage(route.usage + UsageOf(x.reply.chunks));
    UsageIsTokens(x.reply.chunks);
    ShownEvidence(query, hits);
    ShownTails(hits, usage);
    ShownReply(x, Evidence(query, hits), if x.reply.breaks then BROKEN else CitedTail(hits, usage));
  }

  lemma ShownFromCache(x: Inputs, route: Route, answer: string, citations: seq<Cache.Citation>)
    ensures Shown(FromCache(x, route, answer, citations).notes) ==
            [Delta(answer), Citations(citations), Answered(true, false, None)]
  {
    var found, result := Trace(Retrieval, Completed, None), Trace(Result, Completed, None);
    var end := Answered(true, false, None);
    assert FromCache(x, route, answer, citations).notes ==
           [found] + ([Delta(answer)] + ([Citations(citations)] + ([result] + [end])));
    ShownAfterPhase(found, [Delta(answer)] + ([Citations(citations)] + ([result] + [end])));
    ShownAfterKept(Delta(answer), [Citations(citations)] + ([result] + [end]));
    ShownAfterKept(Citations(citations), [result] + [end]);
    ShownAfterPhase(result, [end]);
    ShownAll([end]);
  }

  lemma ShownRefusal(x: Inputs, route: Route, query: string)
    ensures Shown(Refusal(x, route, query).notes) ==
            [ToolCalls(query, []), Delta(OFFTOPIC_REPLY), Citations([]), Answered(false, true, None)]
  {
    var found, result := Trace(Retrieval, Blocked, Some(SEARCH)), Trace(Result, Blocked, None);
    var rest := [ToolCalls(query, []), Delta(OFFTOPIC_REPLY), Citations([]), Answered(false, true, None)];
    assert Refusal(x, route, query).notes == [found] + ([result] + rest);
    ShownAfterPhase(found, [result] + rest);
    ShownAfterPhase(result, rest);
    ShownAll(rest);
  }

  lemma ShownOpening(x: Inputs, rest: seq<Note>)
    ensures Shown(Opening(x) + rest) == [Started(x.principal && x.conversation && x.repository)] + Shown(rest)
  {
    var policy := Trace(Policy, Completed, None);
    assert Opening(x) + rest == [Started(Persists(x))] + ([policy] + rest);
    ShownAfterKept(Started(Persists(x)), [policy] + rest);
    ShownAfterPhase(policy, rest);
  }

  lemma CannedTells(x: Inputs, status: Status, text: string, offtopic: bool)
    ensures TellsCanned(x, Canned(x, status, text, offtopic), text, offtopic)
  {
    var routing, result := Trace(Routing, status, None), Trace(Result, status, None);
    var rest := [Delta(text), Citations([]), Answered(false, offtopic, None)];
    CannedParts(x, status, text, offtopic, [routing] + ([result] + rest));
    ShownOpening(x, [routing] + ([result] + rest));
    ShownAfterPhase(routing, [result] + rest);
    ShownAfterPhase(result, rest);
    ShownAll(rest);
    HeadOfNone(x, rest);
  }

  lemma HeadOfNone(x: Inputs, rest: seq<Note>)
    ensures Head(x, [], rest) == [Started(x.principal && x.conversation && x.repository)] + rest
  {
    assert ToolNotes([]) + rest == rest;
  }

  lemma CannedParts(x: Inputs, status: Status, text: string, offtopic: bool, rest: seq<Note>)
    requires rest == [Trace(Routing, status, None)] + ([Trace(Result, status, None)] +
                     [Delta(text), Citations([]), Answered(false, offtopic, None)])
    ensures Canned(x, status, text, offtopic).notes == Opening(x) + rest
  {}

  // The routed session around a branch.
  lemma ShownScript(x: Inputs, route: Route, turns: seq<Turn>, branch: Session)
    requires LeadsTo(turns, x.question, route)
    ensures Shown(Opening(x) + Ordinary(route, branch).notes) ==
            Head(x, turns, (if route.broken then [Problem] else []) + Shown(branch.notes))
  {
    var begun := Trace(Routing, Begun, None);
    var rest := route.notes + branch.notes;
    assert Ordinary(route, branch).notes == [begun] + rest;
    ShownOpening(x, [begun] + rest);
    ShownAfterPhase(begun, rest);
    ShownTogether(route.notes, branch.notes);
    Regrouped(ToolNotes(turns), if route.broken then [Problem] else [], Shown(branch.notes));
  }

  lemma ShownKnowledge(x: Inputs, turns: seq<Turn>, route: Route)
    requires route.usage == Spent(turns)
    ensures var query := QueryOf(x, route);
            Shown(FromKnowledge(x, route).notes) ==
            KnowledgeNotes(x, turns, MayCache(x, route.ran) && x.lookup.Found?, query, Sources(Merged(x, query)))
  {
    var query := QueryOf(x, route);
    var hits := Sources(Merged(x, query));
    if MayCache(x, route.ran) && x.lookup.Found? {
      ShownFromCache(x, route, x.lookup.answer, x.lookup.citations);
    } else if hits == [] {
      ShownRefusal(x, route, query);
    } else {
      ShownGrounded(x, turns, route, query, hits);
    }
  }

  ghost predicate FollowsBranch(x: Inputs, turns: seq<Turn>, s: Session, branch: Session) {
    && s.messages == branch.messages && s.put == branch.put && s.ran == branch.ran
    && Shown(s.notes) == Head(x, turns, Shown(branch.notes))
  }

  lemma KnowledgeTells(x: Inputs, turns: seq<Turn>, route: Route, s: Session)
    requires turns != [] && LeadsTo(turns, x.question, route) && !route.broken && !TellsTools(turns)
    requires FollowsBranch(x, turns, s, FromKnowledge(x, route))
    ensures TellsTurns(x, turns, s)
  {
    var query := QueryOf(x, route);
    var hits := Sources(Merged(x, query));
    MergedAreHits(x, query);
    KnowledgeIsTold(x, turns, route, s);
    assert QueryIs(x, turns, query);
  }

  lemma KnowledgeIsTold(x: Inputs, turns: seq<Turn>, route: Route, s: Session)
    requires route.usage == Spent(turns) && FollowsBranch(x, turns, s, FromKnowledge(x, route))
    ensures TellsKnowledge(x, turns, s, QueryOf(x, route), Sources(Merged(x, QueryOf(x, route))))
  {
    ShownKnowledge(x, turns, route);
    DeltasAreStreamed(x.reply.chunks);
    SaidIsText(x.reply.chunks);
  }

  lemma ResultsTell(x: Inputs, turns: seq<Turn>, route: Route, s: Session)
    requires turns != [] && LeadsTo(turns, x.question, route) && !route.broken && TellsTools(turns)
    requires FollowsBranch(x, turns, s, FromTools(x, route))
    ensures TellsTurns(x, turns, s)
  {
    ShownFromTools(x, turns, route);
    DeltasAreStreamed(x.reply.chunks);
    SaidIsText(x.reply.chunks);
  }

  lemma BranchTells(x: Inputs, turns: seq<Turn>, route: Route, s: Session)
    requires turns != [] && LeadsTo(turns, x.question, route)
    requires var o := Ordinary(route, Branch(x, route)); s == o.(notes := Opening(x) + o.notes)
    ensures TellsTurns(x, turns, s)
  {
    var branch := Branch(x, route);
    ShownScript(x, route, turns, branch);
    assert [] + Shown(branch.notes) == Shown(branch.notes);
    if route.broken {
      assert [Problem] + [] == [Problem];
    } else if TellsTools(turns) {
      assert route.search == None && route.ran != [];
      ResultsTell(x, turns, route, s);
    } else {
      KnowledgeTells(x, turns, route, s);
    }
  }

  lemma PlayedTurns(x: Inputs, turns: seq<Turn>)
    requires PlayedFrom(TurnsOf(x), 0, turns)
    ensures Played(x, turns)
  {
    forall i | 0 <= i < |turns| ensures IsTurn(x, i, turns[i]) {
      TurnAnswers(x, i);
      assert TurnsOf(x)(i) == TurnAt(x, i);
    }
  }

  // ---- the theorems ----

  // Every stream: a fixed reply where a guard speaks up; otherwise the turns that are played
  // settle which tools run, whether their results, the cache, a refusal or a grounded answer
  // follows, and every frame that is not the trace of a phase.
  lemma StreamTells(x: Inputs)
    ensures if x.greeting then TellsCanned(x, Script(x), GREETING_REPLY, false)
            else if x.privacy then TellsCanned(x, Script(x), PRIVACY_REPLY, true)
            else if x.malicious then TellsCanned(x, Script(x), MALICIOUS_REPLY, true)
            else exists turns :: Played(x, turns) && TellsTurns(x, turns, Script(x))
  {
    if x.greeting {
      CannedTells(x, Completed, GREETING_REPLY, false);
    } else if x.privacy {
      CannedTells(x, Blocked, PRIVACY_REPLY, true);
    } else if x.malicious {
      CannedTells(x, Blocked, MALICIOUS_REPLY, true);
    } else {
      var turns := RouteLeads(TurnsOf(x), x.question, 0);
      PlayedTurns(x, turns);
      BranchTells(x, turns, RouteFrom(TurnsOf(x), x.question, 0), Script(x));
    }
  }

  // The cards among some notes, in order.
  function CardsIn(notes: seq<Note>): seq<Outcome> {
    if notes == [] then []
    else (if notes[0].Booking? then [notes[0].outcome] else []) + CardsIn(notes[1..])
  }

  // What the tools that write answered, in the order they ran.
  function Written(turns: seq<Turn>): seq<Outcome> {
    if turns == [] then []
    else
      (if turns[0].choice.Runs? && WritesCard(turns[0].choice.name) then [turns[0].choice.outcome] else [])
      + Written(turns[1..])
  }

  lemma {:induction false} CardsInTogether(a: seq<Note>, b: seq<Note>)
    ensures CardsIn(a + b) == CardsIn(a) + CardsIn(b)
  {
    if a == [] {
      assert a + b == b;
    } else {
      assert (a + b)[0] == a[0] && (a + b)[1..] == a[1..] + b;
      CardsInTogether(a[1..], b);
      Regrouped(if a[0].Booking? then [a[0].outcome] else [], CardsIn(a[1..]), CardsIn(b));
    }
  }

  lemma {:induction false} CardsAreShown(notes: seq<Note>)
    ensures CardsIn(Shown(notes)) == CardsIn(notes)
  {
    if notes != [] {
      CardsAreShown(notes[1..]);
      var first := if Kept(notes[0]) then [notes[0]] else [];
      CardsInTogether(first, Shown(notes[1..]));
      assert first != [] ==> first[1..] == [];
    }
  }

  lemma {:induction false} NoCardsIn(notes: seq<Note>)
    requires forall i :: 0 <= i < |notes| ==> !notes[i].Booking?
    ensures CardsIn(notes) == []
  {
    if notes != [] {
      NoCardsIn(notes[1..]);
    }
  }

  lemma {:induction false} ToolNotesAreTraces(turns: seq<Turn>)
    ensures forall i :: 0 <= i < |ToolNotes(turns)| ==> ToolNotes(turns)[i].Trace?
  {
    if turns != [] {
      ToolNotesAreTraces(turns[1..]);
    }
  }

  lemma {:induction false} WrittenCards(turns: seq<Turn>)
    ensures CardsIn(CardNotes(turns)) == Written(turns)
  {
    if turns != [] {
      WrittenCards(turns[1..]);
      var first := CardNotes(turns)[..|CardNotes(turns)| - |CardNotes(turns[1..])|];
      assert CardNotes(turns) == first + CardNotes(turns[1..]);
      CardsInTogether(first, CardNotes(turns[1..]));
      assert first != [] ==> first[1..] == [];
    }
  }

  lemma CardsOfHead(x: Inputs, turns: seq<Turn>, rest: seq<Note>)
    ensures CardsIn(Head(x, turns, rest)) == CardsIn(rest)
  {
    ToolNotesAreTraces(turns);
    NoCardsIn(ToolNotes(turns));
    var started := [Started(x.principal && x.conversation && x.repository)];
    NoCardsIn(started);
    CardsInTogether(started, ToolNotes(turns) + rest);
    CardsInTogether(ToolNotes(turns), rest);
  }

  // A stream that puts the results of tools into words has one card for every booking, cancellation
  // and reschedule that was run, in order, with what it answered; every other stream has none.
  lemma CardsExactly(x: Inputs)
    ensures if x.greeting || x.privacy || x.malicious then CardsIn(Script(x).notes) == []
            else exists turns :: Played(x, turns) && TellsTurns(x, turns, Script(x))
                   && CardsIn(Script(x).notes) == if TellsTools(turns) then Written(turns) else []
  {
    StreamTells(x);
    CardsAreShown(Script(x).notes);
    if x.greeting || x.privacy || x.malicious {
      CardsOfCanned(x);
    } else {
      var turns :| Played(x, turns) && TellsTurns(x, turns, Script(x));
      CardsOfTurns(x, turns, Script(x));
    }
  }

  lemma CardsOfCanned(x: Inputs)
    requires x.greeting || x.privacy || x.malicious
    ensures CardsIn(Shown(Script(x).notes)) == []
  {
    StreamTells(x);
    var rest := Shown(Script(x).notes)[1..];
    NoCardsIn(rest);
    CardsOfHead(x, [], rest);
    assert Shown(Script(x).notes) == Head(x, [], rest);
  }

  lemma CardsOfTurns(x: Inputs, turns: seq<Turn>, s: Session)
    requires turns != [] && TellsTurns(x, turns, s)
    ensures CardsIn(Shown(s.notes)) == if TellsTools(turns) then Written(turns) else []
  {
    OnlyDeltas(x.reply.chunks);
    if turns[|turns| - 1].choice == Breaks {
      NoCardsIn([Problem]);
      CardsOfHead(x, turns, [Problem]);
    } else if TellsTools(turns) {
      var end := if x.reply.breaks then [Problem] else [Answered(false, false, Total(turns, x.reply.chunks))];
      NoCardsIn(Streamed(x.reply.chunks) + end);
      CardsInTogether(CardNotes(turns), Streamed(x.reply.chunks) + end);
      WrittenCards(turns);
      var rest := CardNotes(turns) + Streamed(x.reply.chunks) + end;
      assert rest == CardNotes(turns) + (Streamed(x.reply.chunks) + end);
      CardsOfHead(x, turns, rest);
    } else {
      var query, hits :| QueryIs(x, turns, query) && AreHits(x, query, hits)
        && TellsKnowledge(x, turns, s, query, hits);
      KnowledgeHasNoCards(x, turns, s, query, hits);
    }
  }

  lemma KnowledgeHasNoCards(x: Inputs, turns: seq<Turn>, s: Session, query: string, hits: seq<Cache.Citation>)
    requires TellsKnowledge(x, turns, s, query, hits)
    ensures CardsIn(Shown(s.notes)) == []
  {
    OnlyDeltas(x.reply.chunks);
    var rest := KnowledgeNotes(x, turns, MayCache(x, s.ran) && x.lookup.Found?, query, hits);
    assert Shown(s.notes) == Head(x, turns, rest);
    NoCardsIn(rest);
    CardsOfHead(x, turns, rest);
  }

  // ---- the traces agree with the end ----

  function LastTrace(notes: seq<Note>): Option<Note> {
    if notes == [] then None
    else if notes[|notes| - 1].Trace? then Some(notes[|notes| - 1])
    else LastTrace(notes[..|notes| - 1])
  }

  lemma {:induction false} LastTraceAfter(a: seq<Note>, b: seq<Note>)
    ensures LastTrace(a + b) == if LastTrace(b).Some? then LastTrace(b) else LastTrace(a)
  {
    if b == [] {
      assert a + b == a;
    } else {
      var n := |b| - 1;
      assert (a + b)[|a + b| - 1] == b[n] && (a + b)[..|a + b| - 1] == a + b[..n];
      LastTraceAfter(a, b[..n]);
    }
  }

  // The last trace of a stream that ends in an error is a broken one, of the routing or of the
  // answer; that of a completed one is its result: blocked if it is off topic, else completed.
  ghost predicate Agrees(notes: seq<Note>) {
    && notes != []
    && match notes[|notes| - 1]
       case Problem =>
         LastTrace(notes) in {Some(Trace(Routing, Broken, None)), Some(Trace(Generation, Broken, None))}
       case Answered(_, offtopic, _) =>
         LastTrace(notes) == Some(Trace(Result, if offtopic then Blocked else Completed, None))
       case _ => false
  }

  lemma AgreesAfter(a: seq<Note>, b: seq<Note>)
    requires Agrees(b)
    ensures Agrees(a + b)
  {
    LastTraceAfter(a, b);
  }

  // A trace and then some other notes, of which the last one is the end.
  lemma AgreesHere(trace: Note, rest: seq<Note>)
    requires trace.Trace? && rest != [] && forall i :: 0 <= i < |rest| ==> !rest[i].Trace?
    requires match rest[|rest| - 1]
             case Problem => trace in {Trace(Routing, Broken, None), Trace(Generation, Broken, None)}
             case Answered(_, offtopic, _) => trace == Trace(Result, if offtopic then Blocked else Completed, None)
             case _ => false
    ensures Agrees([trace] + rest)
  {
    NoTraceIn(rest);
    LastTraceAfter([trace], rest);
    assert [trace][..0] == [];
  }

  lemma {:induction false} NoTraceIn(notes: seq<Note>)
    requires forall i :: 0 <= i < |notes| ==> !notes[i].Trace?
    ensures LastTrace(notes) == None
  {
    if notes != [] {
      NoTraceIn(notes[..|notes| - 1]);
    }
  }

  lemma TailsAgree(hits: seq<Cache.Citation>, usage: Option<nat>)
    ensures Agrees(BROKEN) && Agrees(CitedTail(hits, usage)) && Agrees(ToldTail(usage))
  {
    var done, result := Trace(Generation, Completed, None), Trace(Result, Completed, None);
    assert BROKEN == [Trace(Generation, Broken, None)] + [Problem];
    AgreesHere(Trace(Generation, Broken, None), [Problem]);
    AgreesHere(result, [Answered(true, false, usage)]);
    assert CitedTail(hits, usage) == [done, Citations(hits)] + ([result] + [Answered(true, false, usage)]);
    AgreesAfter([done, Citations(hits)], [result] + [Answered(true, false, usage)]);
    AgreesHere(result, [Answered(false, false, usage)]);
    assert ToldTail(usage) == [done] + ([result] + [Answered(false, false, usage)]);
    AgreesAfter([done], [result] + [Answered(false, false, usage)]);
  }

  lemma ReplyAgrees(before: seq<Note>, x: Inputs, tail: seq<Note>)
    requires Agrees(tail)
    ensures Agrees(before + (DeltasOf(x.reply.chunks) + tail))
  {
    AgreesAfter(DeltasOf(x.reply.chunks), tail);
    AgreesAfter(before, DeltasOf(x.reply.chunks) + tail);
  }

  lemma KnowledgeAgrees(x: Inputs, route: Route)
    ensures Agrees(FromKnowledge(x, route).notes)
  {
    var query := QueryOf(x, route);
    var hits := Sources(Merged(x, query));
    if Eligible(x, route.ran) && x.lookup.Found? {
      var before := [Trace(Retrieval, Completed, None), Delta(x.lookup.answer), Citations(x.lookup.citations)];
      var result, end := Trace(Result, Completed, None), Answered(true, false, None);
      AgreesHere(result, [end]);
      AgreesAfter(before, [result] + [end]);
      assert FromCache(x, route, x.lookup.answer, x.lookup.citations).notes == before + ([result] + [end]);
    } else if hits == [] {
      var found, result := Trace(Retrieval, Blocked, Some(SEARCH)), Trace(Result, Blocked, None);
      var rest := [ToolCalls(query, []), Delta(OFFTOPIC_REPLY), Citations([]), Answered(false, true, None)];
      AgreesHere(result, rest);
      AgreesAfter([found], [result] + rest);
      assert Refusal(x, route, query).notes == [found] + ([result] + rest);
    } else {
      GroundedAgrees(x, route, query, hits);
    }
  }

  lemma GroundedAgrees(x: Inputs, route: Route, query: string, hits: seq<Cache.Citation>)
    ensures Agrees(Grounded(x, route, query, hits).notes)
  {
    var usage := Usage(route.usage + UsageOf(x.reply.chunks));
    TailsAgree(hits, usage);
    ReplyAgrees(Evidence(query, hits), x, if x.reply.breaks then BROKEN else CitedTail(hits, usage));
  }

  lemma ToolsAgree(x: Inputs, route: Route)
    ensures Agrees(FromTools(x, route).notes)
  {
    var usage := Usage(route.usage + UsageOf(x.reply.chunks));
    TailsAgree([], usage);
    ReplyAgrees(Intro(route.ran), x, if x.reply.breaks then BROKEN else ToldTail(usage));
  }

  lemma {:induction false} BrokenAgrees(turnsOf: Turns, question: string, step: nat)
    requires step <= MAX_STEPS && RouteFrom(turnsOf, question, step).broken
    ensures Agrees(RouteFrom(turnsOf, question, step).notes)
    decreases MAX_STEPS - step
  {
    if turnsOf(step).choice.Runs? {
      BrokenAgrees(turnsOf, question, step + 1);
      AgreesAfter([ToolTrace(turnsOf(step).choice.name, turnsOf(step).choice.outcome)],
                  RouteFrom(turnsOf, question, step + 1).notes);
    } else {
      AgreesHere(Trace(Routing, Broken, None), [Problem]);
      assert EndOf(turnsOf(step), question, step == 0).notes == [Trace(Routing, Broken, None)] + [Problem];
    }
  }

  lemma CannedAgrees(x: Inputs, status: Status, text: string, offtopic: bool)
    requires status == if offtopic then Blocked else Completed
    ensures Agrees(Canned(x, status, text, offtopic).notes)
  {
    var rest := [Delta(text), Citations([]), Answered(false, offtopic, None)];
    var before := Opening(x) + [Trace(Routing, status, None)];
    AgreesHere(Trace(Result, status, None), rest);
    AgreesAfter(before, [Trace(Result, status, None)] + rest);
    assert Canned(x, status, text, offtopic).notes == before + ([Trace(Result, status, None)] + rest);
  }

  lemma TracesAgree(x: Inputs)
    ensures Agrees(Script(x).notes)
  {
    if x.greeting {
      CannedAgrees(x, Completed, GREETING_REPLY, false);
    } else if x.privacy {
      CannedAgrees(x, Blocked, PRIVACY_REPLY, true);
    } else if x.malicious {
      CannedAgrees(x, Blocked, MALICIOUS_REPLY, true);
    } else {
      var route := RouteFrom(TurnsOf(x), x.question, 0);
      BranchAgrees(x, route);
      var branch := Branch(x, route);
      var begun := [Trace(Routing, Begun, None)];
      AgreesAfter(begun, route.notes + branch.notes);
      AgreesAfter(Opening(x), begun + (route.notes + branch.notes));
      assert Ordinary(route, branch).notes == begun + (route.notes + branch.notes);
    }
  }

  lemma BranchAgrees(x: Inputs, route: Route)
    requires route == RouteFrom(TurnsOf(x), x.question, 0)
    ensures Agrees(route.notes + Branch(x, route).notes)
  {
    if route.broken {
      BrokenAgrees(TurnsOf(x), x.question, 0);
      assert route.notes + [] == route.notes;
    } else {
      KnowledgeAgrees(x, route);
      ToolsAgree(x, route);
      AgreesAfter(route.notes, Branch(x, route).notes);
    }
  }
}
